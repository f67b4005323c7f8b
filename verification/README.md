# Tolaram feedback: a Dafny model of the feedback pages and their components

This project models the customer-feedback web application. Shoppers rate their visit to a
store and the products they bought. An administrator then browses and filters the
collected reviews. The model covers what that code decides:

- **Feedback page** (`feedback_form.dfy`): the form record and its field-by-field updates.
  - The anonymity switch hides the name and e-mail inputs.
  - The visit date can be changed but never cleared.
  - Submitting shows "Submitting..." until a 1.5-second timer completes it and moves to the
    thank-you page. The disabled submit button is the only guard against submitting twice.
- **Thank-you page** (`thank_you.dfy`): the customer and product names, with their generic
  fallbacks, the paragraph that names them, and the redirect to "/" for a visitor who
  arrives without a navigation state.
- **Issue checklist** (`issue_selection.dfy`): one checkbox per issue. The checkbox is checked
  when its issue is selected, its id is made from the issue text, and the form's `issue`
  error shows under the list.
- **Product catalogue** (`catalog.dfy`): the four products, their flavours and the five
  product issues, with the facts that keep every flavour id unique.
- **Word-capped text area** (`word_cap.dfy`):
  - It counts the words typed, with JavaScript's `trim` and `split(/\s+/)` written out.
  - When a cap is set and exceeded, it cuts the text to the first `maxWords` words, joined
    by single spaces.
  - It shows a word-count readout.
- **Star rating** (`star_rating.dfy`): `max` stars, filled up to the hovered star or the
  stored value. Clicks are reported unless the control is read-only.
- **Admin reports tab** (`admin_reports.dfy`):
  - the fixed list of reviews;
  - the filter by date range, store and case-insensitive search;
  - the filter state and its reset button;
  - the colour band of each score.

Shared pieces:

- `text.dfy`: JavaScript's white-space class (the characters `\s` and `trim` recognise),
  ASCII `toLowerCase` and `includes`.
- `wrappers.dfy`: an `Option` type.
- `routing.dfy`: the navigation requests the router receives, each a path and an optional
  state object.

Pages whose handlers update React state are classes, and each handler has an `ensures`
giving the whole new state. The feedback page, the text area and the star rating also carry
a `Valid()` invariant that every handler keeps. The admin filters need none, since every
filter value is allowed. Values the page derives from its state are functions.

The pages as written validate nothing before submitting. There is no required-name check,
no error map filled by the feedback page, no product or variant step and no store write.
These pages have no validating, succeeded or failed states, so none is modelled. The only
submission states are the `submitting` flag and the pending timer.

## Model

| member | source | states |
|---|---|---|
| Text.ToLower | src/pages/Admin.tsx:60-61 | lower-casing keeps the length and lower-cases every character in place |
| Text.ToLowerIdempotent | src/pages/Admin.tsx:60-61 | lower-casing an already lower-cased term changes nothing |
| Text.ContainsIffOccurs | src/pages/Admin.tsx:60-61 | `includes` holds exactly when the needle starts at some position of the text |
| Text.ContainsAt | src/pages/Admin.tsx:60-61 | an occurrence at a known position is found by `includes` |
| WordCap.WordCount | src/components/ui/textarea.tsx:17 | the count is the number of maximal non-space runs, and it is 0 exactly when the text is all white space |
| WordCap.WordCountIsRunCount | src/components/ui/textarea.tsx:17 | the count equals the number of positions where a word starts (a non-space after a space or at the start) |
| WordCap.WordsOfTrim | src/components/ui/textarea.tsx:17 | trimming first does not change the words |
| WordCap.Truncate | src/components/ui/textarea.tsx:19-25 | over a non-zero cap the result's words are exactly the first `maxWords` words of the input, separated by single spaces with no outer white space; otherwise the text is returned unchanged; a non-zero cap is never exceeded afterwards |
| WordCap.TruncateIdempotent | src/components/ui/textarea.tsx:19-25 | cutting an already cut text changes nothing |
| WordCap.WordsOfJoin | src/components/ui/textarea.tsx:21-23 | splitting the space-joined words gives the same words back |
| WordCap.JoinHasNoOuterSpace | src/components/ui/textarea.tsx:23 | joining words gives a non-empty text that starts and ends with a non-space |
| WordCap.StoredCountCanExceedCap | src/components/ui/textarea.tsx:28 | the readout counts the typed text, not the cut one: "a b c" with a cap of 2 shows 3 while the field holds "a b" |
| WordCap.Textarea.constructor | src/components/ui/textarea.tsx:12-13 | the count starts at 0 and nothing has been delivered |
| WordCap.Textarea.ReadoutShown | src/components/ui/textarea.tsx:47 | the readout is rendered exactly when `showWordCount` or a non-zero cap is set, so a capped field always shows it and a red readout is never hidden |
| WordCap.Textarea.ReadoutFlagged | src/components/ui/textarea.tsx:49 | the readout is red exactly when the cap is non-zero and the stored count has reached it, so an uncapped field is never red |
| WordCap.Textarea.HandleChange | src/components/ui/textarea.tsx:15-34 | the field holds the cut text, the count is that of the typed text, the caller's `onChange` sees the cut text when one is given, every delivered text respects the cap, and the readout turns red exactly when the cap is non-zero and reached |
| AdminReports.DayOrder | src/pages/Admin.tsx:57 | day numbers order calendar days as the dates do |
| AdminReports.DateMatch | src/pages/Admin.tsx:57 | with either date unset every row passes; with both set a row passes exactly when its day lies in the range, both ends included |
| AdminReports.StoreMatch | src/pages/Admin.tsx:58 | "all" passes every row; any other store passes exactly the rows of that store |
| AdminReports.SearchMatch | src/pages/Admin.tsx:59-61 | the empty term passes every row; any other term passes exactly when its lower-cased form occurs in the lower-cased name or comment |
| AdminReports.Keep | src/pages/Admin.tsx:62 | a row is kept exactly when it passes the date, store and search tests, and the initial filters keep every row |
| AdminReports.FilterRows | src/pages/Admin.tsx:56-63 | the kept rows are a subsequence of the rows, in order, and a row is kept exactly when it is one of the rows and passes: its date is in the inclusive range (or a bound is missing), its store matches (or "all"), and the term occurs case-insensitively in the name or comment |
| AdminReports.FilterKeepsMultiplicity | src/pages/Admin.tsx:56-63 | each passing row is kept as often as it occurs among the rows, and no other row is kept |
| AdminReports.NoFiltersKeepAll | src/pages/Admin.tsx:50-63 | with the initial filter values every row is kept, in order |
| AdminReports.InvertedRangeKeepsNothing | src/pages/Admin.tsx:57 | a start date after the end date keeps no row |
| AdminReports.SearchIgnoresCase | src/pages/Admin.tsx:59-61 | the search gives the same answer for a term and its lower-cased form |
| AdminReports.EmptyTermOccursEverywhere | src/pages/Admin.tsx:59-61 | the empty term occurs in every name, so the explicit `=== ""` test agrees with `includes` |
| AdminReports.FilterIdempotent | src/pages/Admin.tsx:56-63 | filtering the filtered rows again changes nothing |
| AdminReports.WuseStoreScenario | src/pages/Admin.tsx:18-24 | choosing "Abuja - Wuse II" keeps only review 2 of the dashboard data |
| AdminReports.DashboardStoresAreOffered | src/pages/Admin.tsx:18-24 | every store in the dashboard data is one that the feedback page's store select offers |
| AdminReports.DateMatchAsWritten | src/pages/Admin.tsx:57 | with either date unset every row passes; with both set the row's UTC-midnight instant must lie between the local-midnight instants of the two days, both included |
| AdminReports.AsWrittenMatchesAtUtc | src/pages/Admin.tsx:57 | in UTC the comparison as written is the inclusive day range |
| AdminReports.AsWrittenEastOfUtcExcludesEnd | src/pages/Admin.tsx:57 | east of UTC the comparison as written keeps a row exactly when start <= day < end |
| AdminReports.AsWrittenWestOfUtcExcludesStart | src/pages/Admin.tsx:57 | west of UTC the comparison as written keeps a row exactly when start < day <= end |
| AdminReports.LagosSingleDayIsEmpty | src/pages/Admin.tsx:57 | in Lagos (UTC+1) picking 25 April for both ends hides the review dated 25 April, which the inclusive range keeps |
| AdminReports.ScoreBand | src/pages/Admin.tsx:260-262 | a score is coloured (not red) exactly from 6, and green exactly from 8 |
| AdminReports.BandThresholds | src/pages/Admin.tsx:260-262 | a score is green exactly from 8, yellow exactly from 6 below 8, red exactly below 6 |
| AdminReports.BandMonotone | src/pages/Admin.tsx:260-262 | a higher score never gets a worse band |
| AdminReports.RowBands | src/pages/Admin.tsx:258-295 | the four score columns are banded in order: staff, cleanliness, availability, overall |
| AdminReports.ReportFilters.constructor | src/pages/Admin.tsx:50-53 | the page starts with no dates, store "all" and an empty search |
| AdminReports.ReportFilters.FilteredFeedback | src/pages/Admin.tsx:56-63 | the shown rows are the dashboard rows kept by the current filters |
| AdminReports.ReportFilters.SelectStartDate | src/pages/Admin.tsx:140 | the calendar replaces the start date, or clears it on deselect, and nothing else changes |
| AdminReports.ReportFilters.SelectEndDate | src/pages/Admin.tsx:167 | the calendar replaces the end date, or clears it on deselect, and nothing else changes |
| AdminReports.ReportFilters.SelectStore | src/pages/Admin.tsx:179 | the store select replaces only the store |
| AdminReports.ReportFilters.SetSearchTerm | src/pages/Admin.tsx:201 | typing replaces only the search term |
| AdminReports.ReportFilters.ResetFilters | src/pages/Admin.tsx:212-217 | after a reset the filters are the initial ones and every row is shown |
| StarRating.EffectiveMax | src/components/ui/star-rating.tsx:23 | an absent `max` means 5 stars, a given one is used as is |
| StarRating.EffectiveValue | src/components/ui/star-rating.tsx:47-49 | a hovered star's value wins over the stored value; with no hover the stored value is used |
| StarRating.IsFilled | src/components/ui/star-rating.tsx:47-49 | a star is filled exactly when its value is at most the effective value |
| StarRating.RenderStars | src/components/ui/star-rating.tsx:45-49 | there are `max` stars valued 1..max in order |
| StarRating.FilledStarsFormPrefix | src/components/ui/star-rating.tsx:46-49 | a star is filled exactly when its value is at most the hovered value (or the stored value with no hover), so the filled stars are a prefix |
| StarRating.FilledCountIsClamped | src/components/ui/star-rating.tsx:45-49 | the number of filled stars is the effective value clamped to 0..max |
| StarRating.HoverShowsHoveredStar | src/components/ui/star-rating.tsx:47-48 | hovering star k fills exactly k stars, whatever the stored value |
| StarRating.StarRatingWidget.constructor | src/components/ui/star-rating.tsx:19-31 | the props are taken with their defaults and nothing is hovered |
| StarRating.StarRatingWidget.Stars | src/components/ui/star-rating.tsx:45 | the control draws `max` stars |
| StarRating.StarRatingWidget.Caption | src/components/ui/star-rating.tsx:72-76 | the "value of max" caption appears exactly when `showValue` is set |
| StarRating.StarRatingWidget.MouseEnter | src/components/ui/star-rating.tsx:63 | entering a star hovers it unless read-only; a read-only control never hovers |
| StarRating.StarRatingWidget.MouseLeave | src/components/ui/star-rating.tsx:64 | leaving clears the hover unless read-only |
| StarRating.StarRatingWidget.Click | src/components/ui/star-rating.tsx:62 | a click reports the star's value once unless read-only, and changes no stored value itself |
| StarRating.StarRatingWidget.SetValue | src/components/ui/star-rating.tsx:20 | the parent's new value replaces the stored one and keeps the hover |
| FeedbackForm.WithText | src/pages/Feedback.tsx:48-51 | the named text field takes the new value and every other field keeps its value |
| FeedbackForm.WithRating | src/pages/Feedback.tsx:53-55 | the named rating takes the new value and every other field keeps its value |
| FeedbackForm.TextUpdatesCommute | src/pages/Feedback.tsx:48-51 | edits to two different inputs give the same form in either order |
| FeedbackForm.InitialRatingsOnScale | src/pages/Feedback.tsx:40-43 | the initial ratings of 5 lie on the sliders' 1..10 scale |
| FeedbackForm.IssueCheckboxId | src/pages/Feedback.tsx:273 | the page's own issue ids have no white space, are as long as the issue's non-space characters, and are the issue itself when it has no white space |
| FeedbackForm.IssueCheckboxIdKeepsOrder | src/pages/Feedback.tsx:273 | each non-space character of the issue lands in the id at the index that counts the non-space characters before it, so the id is those characters in order |
| FeedbackForm.IssueCheckboxIdsApart | src/pages/Feedback.tsx:273-275 | issues whose first two characters are non-space and differ get different ids |
| FeedbackForm.PageIssueIdsDistinct | src/pages/Feedback.tsx:265-275 | the page's five inline issues get five different ids, so each label points at its own checkbox |
| FeedbackForm.FeedbackPage.constructor | src/pages/Feedback.tsx:34-46 | the page mounts with the initial form, today's date, not anonymous and not submitting |
| FeedbackForm.FeedbackPage.IdentityFieldsShown | src/pages/Feedback.tsx:123-147 | the name and e-mail inputs are rendered exactly when the page is not anonymous |
| FeedbackForm.FeedbackPage.SubmitDisabled | src/pages/Feedback.tsx:296 | the button is disabled exactly while submitting, and then a completion is pending that will enable it again |
| FeedbackForm.FeedbackPage.SubmitLabel | src/pages/Feedback.tsx:299 | the button reads "Submitting..." exactly while it is disabled, and "Submit Feedback" otherwise |
| FeedbackForm.FeedbackPage.HandleInputChange | src/pages/Feedback.tsx:48-51 | only the named text field changes, and the invariant holds |
| FeedbackForm.FeedbackPage.HandleSliderChange | src/pages/Feedback.tsx:53-55 | only the named rating changes and all ratings stay on the scale |
| FeedbackForm.FeedbackPage.HandleStoreChange | src/pages/Feedback.tsx:57-59 | only the store changes |
| FeedbackForm.FeedbackPage.OnAnonymousChange | src/pages/Feedback.tsx:113 | the page is anonymous exactly when the checkbox reports `true`, not when it reports "indeterminate", so the identity inputs stay shown in that state; the name and e-mail are kept |
| FeedbackForm.FeedbackPage.OnSelectDate | src/pages/Feedback.tsx:171 | a picked day replaces the date and a deselection leaves it |
| FeedbackForm.FeedbackPage.HandleSubmit | src/pages/Feedback.tsx:61-71 | submitting sets the "Submitting..." state and starts one more timer, whatever the form holds |
| FeedbackForm.FeedbackPage.ClickSubmitButton | src/pages/Feedback.tsx:293-297 | a click while submitting starts nothing; otherwise it submits |
| FeedbackForm.FeedbackPage.CompleteSubmission | src/pages/Feedback.tsx:66-70 | the timer clears "Submitting..." and navigates to "/thank-you" with no state |
| FeedbackForm.FeedbackPage.GoHome | src/pages/Feedback.tsx:81 | "Back to Home" and "Cancel" navigate to "/home" with no state |
| FeedbackForm.SubmitUntouchedForm | src/pages/Feedback.tsx:61-71 | the untouched form, clicked twice and completed, ends on one navigation to "/thank-you" with the form still initial |
| Catalog.IndomieWellFormed | src/components/feedback/data/productData.ts:16-31 | Indomie has flavours, each id starts with "indomie-", none repeated |
| Catalog.MinimieWellFormed | src/components/feedback/data/productData.ts:32-44 | Minimie has flavours, each id starts with "minimie-", none repeated |
| Catalog.DanoWellFormed | src/components/feedback/data/productData.ts:45-56 | Dano has flavours, each id starts with "dano-", none repeated |
| Catalog.KelloggsWellFormed | src/components/feedback/data/productData.ts:57-71 | Kellogg's has flavours, each id starts with "kelloggs-", none repeated |
| Catalog.ProductIdsListed | src/components/feedback/data/productData.ts:15-72 | the product ids are indomie, minimie, dano and kelloggs, in that order |
| Catalog.ProductIdsApart | src/components/feedback/data/productData.ts:15-72 | the product ids are distinct and no dashed id is a prefix of another |
| Catalog.CatalogWellFormed | src/components/feedback/data/productData.ts:15-72 | the whole catalogue is well formed |
| Catalog.VariantBelongsToOneProduct | src/components/feedback/data/productData.ts:15-72 | in a well-formed catalogue a flavour id carries its own product's dashed id and no other's |
| Catalog.VariantIdsDistinct | src/components/feedback/data/productData.ts:15-72 | in a well-formed catalogue no flavour id occurs twice across all products |
| Catalog.CatalogVariantIdsDistinct | src/components/feedback/data/productData.ts:15-72 | the 24 flavour ids of the catalogue are all different |
| Catalog.IssuesDistinct | src/components/feedback/data/productData.ts:75-81 | there are five issues, all different |
| IssueSelection.CheckboxId | src/components/feedback/IssueSelection.tsx:36 | every white-space character becomes a dash and every other character stays in place, so the id has the issue's length and no white space |
| IssueSelection.RenderIssues | src/components/feedback/IssueSelection.tsx:33-48 | one row per issue in order; a row's id is `CheckboxId` of its issue and its label points at that id; a row is checked exactly when its issue is selected; toggling reports its own issue |
| IssueSelection.IssueError | src/components/feedback/IssueSelection.tsx:50-52 | the error line is shown exactly when the errors hold a non-empty `issue` message, and it shows that message |
| IssueSelection.IdsApart | src/components/feedback/IssueSelection.tsx:36 | issues of different lengths, or whose first characters are non-space and differ, get different ids |
| IssueSelection.ProductIssueIdsDistinct | src/components/feedback/IssueSelection.tsx:36-42 | the five catalogue issues get five different ids, so each label points at its own checkbox |
| IssueSelection.CheckboxIdsCanCollide | src/components/feedback/IssueSelection.tsx:36 | ids are not unique in general: "a b" and "a-b" get the same id |
| ThankYou.OrDefault | src/pages/ThankYou.tsx:14-15 | an absent or empty value gives the fallback and any other value is kept |
| ThankYou.DisplayName | src/pages/ThankYou.tsx:14 | the shown name is never empty: the given name when non-empty, else "Valued Customer" |
| ThankYou.DisplayProduct | src/pages/ThankYou.tsx:15 | the shown product is never empty: the given product when non-empty, else "our products" |
| ThankYou.RedirectOnMount | src/pages/ThankYou.tsx:18-22 | the page redirects to "/" exactly when it was reached with no state object |
| ThankYou.Message | src/pages/ThankYou.tsx:44 | the paragraph opens with "Thank you " |
| ThankYou.MessageMentionsBoth | src/pages/ThankYou.tsx:44 | the paragraph contains the name and the product it was given |
| ThankYou.BackToHome | src/pages/ThankYou.tsx:58 | "Back to Home" navigates to "/" with no state |
| ThankYou.FeedbackArrivalRedirects | src/pages/ThankYou.tsx:14-22 | every navigation the feedback page makes carries no state, so the thank-you page it reaches redirects to "/" at once and could only thank a "Valued Customer" for feedback about "our products" |

## Left out

- Rendering, styling, icons, animations, the charts, toasts and the Excel export button (a
  toast only) are presentation. The model keeps what decides behaviour.
- Network, login and storage: `feedbackService`, the login page and any store write are not
  called by the modelled pages.
- Time: the 1.5-second timer is an explicit `CompleteSubmission` event. The page's initial
  date, `new Date()` in its own state, is a constructor parameter.
- Dates are day numbers (year*10000 + month*100 + day). Instants inside a day appear only in
  the as-written date comparison, counted in minutes with an explicit time-zone offset.
- Text.ToLower: folds ASCII letters only. JavaScript's `toLowerCase` also folds non-ASCII
  letters.
- Strings are sequences of code points, not JavaScript's UTF-16 units. Lengths can differ for
  characters outside the Basic Multilingual Plane.
- WordCap.Truncate: `maxWords` is a natural number, with 0 standing for an absent (falsy)
  cap. Negative or fractional caps are not modelled.
- WordCap.Textarea: no page of the application passes `maxWords` or `showWordCount`; the
  component is modelled on its own.
- StarRating.StarRatingWidget: `max`, `readOnly` and `showValue` are fixed when the control
  is built, and `value` is an integer. In the source all four are props that a parent may
  change on any render, and `value` may be fractional. Switching `readOnly` on while a star
  is hovered leaves the hover set there, because the leave handler is then switched off.
  Lowering `max` can leave the hover above `max`. The model's invariant (a hover is one of
  the stars, and a read-only control has none) does not capture those states.
- FeedbackForm.FeedbackPage.HandleSliderChange: requires a value on the slider's 1..10
  integer scale. This is the range slider's guarantee, and the slider component is not part
  of this model.
- FeedbackForm.FeedbackPage: the page keeps no state for its own issue checkboxes and never
  reads theirs. Each checkbox keeps its own checked state, which is not modelled. Only their
  id function, `IssueCheckboxId`, is modelled.
- FeedbackForm.IssueCheckboxIdsApart: covers issues whose first two characters are themselves
  non-space. Issues with leading white space, or whose first two non-space characters are
  apart, are not covered. Every issue on the page starts with two letters, so
  `PageIssueIdsDistinct` does not need them.
- FeedbackForm.FeedbackPage.HandleInputChange: the React event is replaced by the field it
  names. An input with some other `name` would add a new key; every input on the page uses
  one of the three names.
- AdminReports: scores are integers; the dashboard data holds no fractional scores.
- IssueSelection.RenderIssues: React keys are the issue texts. A list with a repeated issue
  would give duplicate keys, which is not modelled.
- `handleIssueToggle` belongs to the parent that renders the checklist. That parent is not
  part of this model, so the toggle is recorded as the issue it reports.
- ThankYou.Message: the surrounding heading and the static sentence below the paragraph are
  not modelled.

## Findings

| source | as written | input that shows it | evidently intended | confidence | as-written member | corrected member |
|---|---|---|---|---|---|---|
| src/pages/Admin.tsx:57 | `new Date(feedback.date)` is midnight UTC of the row's day. The calendar gives midnight of the picked day in the browser's time zone, and the two instants are compared directly. | In Lagos (UTC+1) pick 2023-04-25 as both start and end. The review dated 2023-04-25 is hidden, and east of UTC the end day is always excluded. | Compare calendar days, so that both ends of the range are inclusive in every time zone. | not executed | AdminReports.AsWrittenEastOfUtcExcludesEnd | AdminReports.FilterRows |
