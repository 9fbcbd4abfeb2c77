# GenZ Ignite campaign site — a Dafny model of its page logic

GenZ Ignite is the campaign website of a student-council party. It has public
pages (policy tracker, home-page voting widget, live poll, announcements,
complaint form, complaint tracking, team roster, election countdown) and admin
pages (complaints, announcements, policies, members, notification bell). Most
of the site is rendering and calls to a hosted database. The logic inside the
event handlers and helpers is what this project models and proves things about:

- the vote ledgers and the realtime poll update;
- the complaint status toggle, the two submission state machines, and the
  tracking code's check;
- the admin forms: the records they build, the update-or-insert choice, and
  the modal and form state;
- the small pure helpers: the category filter, the status maps, the countdown,
  the notification badge, the mock roster and the marquee.

Each source file becomes one module. Handlers that change component state
become methods of a class whose fields are that state. Remote calls
(select, insert, update, delete) are appended to a ghost request log. What a
call returns (rows, an error, a confirmation dialog's answer) is a parameter
of the method that handles the return. So an `async` handler whose
intermediate state is visible (`loading`, `saving`) is split into a "start"
method and a "finish" method. Pure helpers become functions. Each function
has lemmas that relate it to an independent statement of what the page
promises; for example, the filtered list is a subsequence of the full list,
and a number written into a form field and read back with `parseInt` is the
same number.

Shared modules:

- `Common`: optional values, fetch outcomes, vote write requests, `x || 0`.
- `Decimal`: `String(n)` for naturals and `padStart(2, "0")`.
- `JsText`: `trim`, and `parseInt` on a number field's text.
- `PolicyTypes`: the `Policy` record and the optimistic increment used by both
  vote handlers.
- `ComplaintTypes`: the complaint row and the draft the forms insert.

Behaviour the proofs bring out:

- `NotificationBell.BadgeWithinPage`: the query is limited to five rows, so the
  bell's "9+" badge can never be shown.
- `AdminPolicies.SaveRequestChoice`: a policy whose id is 0 opens under the
  "edit" heading but is saved as a new row, because `editingPolicy?.id` is
  falsy for 0.
- `AdminPolicies.SaveUnchangedRoundTrip` and `AdminMembers.SaveUnchangedRoundTrip`:
  the policies and members forms send an empty image URL as `""`, where the
  announcements form sends `null`.
- `AdminPolicies.SaveUnchangedRoundTrip`: a policy whose category is not one of
  the select's options is saved back with the first option.
- `AdminPolicies.AdminPolicies.CloseModal` and `AdminMembers.AdminMembers.CloseModal`:
  closing or cancelling the policies and members modals does not clear the
  edited record.
- Three status-label maps exist and they disagree:
  - `PolicyPage.StatusTextFaithful` reads "รอดำเนินการ" for pending;
  - `PolicyCard.StatusBadgeFaithful` reads "รออนุมัติ";
  - `AdminPolicies.AdminStatusLabelDistinct` reads "รอดำเนินการ", and "กำลังทำ"
    for in progress.
- `PolicyVoting.VoteRemountVote`: the home-page widget forgets its votes when
  it is mounted again.
- `LivePoll.VoteTwice`: the live poll's vote button is not gated at all.

## Model

| member | source | states |
|---|---|---|
| PolicyTypes.PolicyStatus.Name | types/index.ts:6 | a status is stored as one of the three strings "pending", "in_progress", "completed" |
| PolicyTypes.StatusNameInjective | types/index.ts:6 | two statuses have the same stored string exactly when they are the same status |
| PolicyTypes.Bumped | app/policy/page.tsx:53 | a bumped policy has `(votes or 0) + 1` votes and every other field unchanged |
| PolicyTypes.IncrementWhere | app/policy/page.tsx:52-54 | the optimistic update keeps the length; policies with the id are bumped, every other position is unchanged |
| PolicyTypes.TotalAfterIncrement | app/policy/page.tsx:52-54 | the sum of displayed counts rises by exactly the number of policies carrying the id |
| PolicyTypes.IncrementAbsent | app/policy/page.tsx:52-54 | voting for an id no policy carries leaves the list exactly as it was |
| PolicyTypes.IncrementUnique | app/policy/page.tsx:52-54 | with unique ids, exactly one policy changes, only in its count, by exactly one; the total rises by one |
| PolicyPage.ChoosePoliciesFallback | app/policy/page.tsx:24-36 | non-empty rows are shown as they are; empty rows give the two mock policies; an error gives the one offline policy; the list is never empty and the fallbacks have unique ids |
| PolicyPage.RestoredIds | app/policy/page.tsx:42-43 | the voted ids on mount are the stored list when there is one, otherwise empty |
| PolicyPage.StatusTextFaithful | app/policy/page.tsx:74-80 | completed, in_progress and any other string map to the three texts; the three statuses get different texts |
| PolicyPage.PolicyPage.constructor | app/policy/page.tsx:10-43 | mounting restores the voted list from storage, starts loading, requests nothing |
| PolicyPage.PolicyPage.ApplyFetch | app/policy/page.tsx:24-38 | the chosen list is shown and loading ends; ledger and storage untouched |
| PolicyPage.PolicyPage.HandleVote | app/policy/page.tsx:48-64 | a repeat vote changes nothing; a first vote increments the matching policy, appends the id, stores the new list and requests `(currentVotes or 0) + 1`; the stored list always equals the in-memory one; afterwards the policy's button thanks the voter |
| PolicyPage.CaptionAgrees | app/policy/page.tsx:173-187 | a button is disabled exactly when it reads "ขอบคุณที่โหวต" and enabled exactly when it reads "โหวตนโยบายนี้"; a vote switches its own button to the thanks caption and leaves every other button as it was |
| PolicyPage.VoteTwice | app/policy/page.tsx:48-57 | two votes for the same policy have the effect of one |
| PolicyPage.VoteThenReload | app/policy/page.tsx:42-57 | a page mounted from what a vote stored already counts that vote and ignores a second one |
| PolicyVoting.ButtonStateAgrees | components/campaign/PolicyVoting.tsx:69-76 | a button is disabled exactly when it shows the "voted" caption, and after a vote it is disabled |
| PolicyVoting.PolicyVoting.constructor | components/campaign/PolicyVoting.tsx:9-10 | the shown list is the prop; nothing is voted and nothing is read from storage |
| PolicyVoting.PolicyVoting.HandleVote | components/campaign/PolicyVoting.tsx:12-30 | a repeat vote is a no-op; a first vote increments the matching policy, appends the id and requests `(currentVotes or 0) + 1`; a remote error is only logged, with no rollback |
| PolicyVoting.VoteRemountVote | components/campaign/PolicyVoting.tsx:9-25 | after a remount the same device votes again and a second identical write is requested |
| LivePoll.ChoosePollsFallback | components/campaign/LivePoll.tsx:27-37 | non-empty rows are used; otherwise the four mock options; unique ids stay unique |
| LivePoll.ReplaceById | components/campaign/LivePoll.tsx:50-54 | same length; each position holds the payload if its id matches, else its old item |
| LivePoll.ReplaceByIdKeepsIds | components/campaign/LivePoll.tsx:50-54 | the ids in list order are unchanged: nothing is inserted, removed or reordered |
| LivePoll.ReplaceByIdKeepsUniqueIds | components/campaign/LivePoll.tsx:50-54 | a list with unique ids keeps unique ids |
| LivePoll.ReplaceByIdUnknownId | components/campaign/LivePoll.tsx:50-54 | a payload whose id is not listed leaves the list unchanged |
| LivePoll.ReplaceByIdIdempotent | components/campaign/LivePoll.tsx:50-54 | applying the same payload twice equals applying it once |
| LivePoll.ReplaceByIdShowsPayload | components/campaign/LivePoll.tsx:50-54 | the matching option shows the payload, its count included |
| LivePoll.LivePoll.ApplyFetch | components/campaign/LivePoll.tsx:21-38 | the list becomes the fetched options or the mock options |
| LivePoll.LivePoll.OnChange | components/campaign/LivePoll.tsx:44-57 | only UPDATE events of public.polls replace by id; other events change nothing |
| LivePoll.LivePoll.HandleVote | components/campaign/LivePoll.tsx:64-69 | every call requests `currentVotes + 1` and leaves the list alone |
| LivePoll.VoteTwice | components/campaign/LivePoll.tsx:64-69 | two votes from one device request two identical writes |
| ComplaintsAdmin.SetStatus | app/admin/complaints/page.tsx:38-40 | complaints with the id get the new status and keep every other field; other rows are unchanged |
| ComplaintsAdmin.ActionFlips | app/admin/complaints/page.tsx:115-130 | only pending and resolved rows have a button; it sets the other of the two, and the next button undoes it |
| ComplaintsAdmin.BadgeMatchesAction | app/admin/complaints/page.tsx:103-130 | the badge reads "เสร็จสิ้น" exactly on rows whose button reopens them |
| ComplaintsAdmin.ToggleTwiceRestores | app/admin/complaints/page.tsx:115-130 | with unique ids, one press changes only that row's status, and pressing the new button restores the original list |
| ComplaintsAdmin.NoEmptyStateAfterFetch | app/admin/complaints/page.tsx:23-28 | rows are used or the two mocks; after loading, the empty-state message cannot appear |
| ComplaintsAdmin.ComplaintsAdmin.ApplyFetch | app/admin/complaints/page.tsx:11-29 | the list is the rows or the mocks, loading ends |
| ComplaintsAdmin.ComplaintsAdmin.UpdateStatus | app/admin/complaints/page.tsx:36-44 | the list is updated by id and the write is requested; its result is not used, so there is no rollback |
| ComplaintsAdmin.ComplaintsAdmin.PressAction | app/admin/complaints/page.tsx:115-130 | a row without a button changes nothing; otherwise its status is flipped and the write requested |
| TrackComplaint.HyphenatedIsAccepted | app/report/track/page.tsx:24 | every 32-hex-digit string with version digit 1–5 and variant digit 8, 9, a or b, laid out 8-4-4-4-12, passes the check |
| TrackComplaint.AcceptedIsHyphenated | app/report/track/page.tsx:24 | every text that passes is such a layout of such digits |
| TrackComplaint.IsUuidCharacterised | app/report/track/page.tsx:24 | the check accepts exactly the hyphenated forms of well-formed digit strings (both directions) |
| TrackComplaint.ValidateFaithful | app/report/track/page.tsx:18-28 | blank-after-trim is rejected first, a malformed code second; the accepted code is the trimmed input; space around the input does not change the outcome |
| TrackComplaint.ReplyOnlyWhenResolved | app/report/track/page.tsx:134-152 | badge and reply box never contradict each other: a reply box only appears under the "แก้ไขแล้ว" badge and shows the stored, non-empty reply; a "รอดำเนินการ" badge never has one; the badge does not depend on the reply; reopening a complaint hides its reply and resolving one with a reply shows it |
| TrackComplaint.TrackPage.constructor | app/report/track/page.tsx:10-13 | empty field, no result, no message, not loading |
| TrackComplaint.TrackPage.Type | app/report/track/page.tsx:84 | typing sets the field and nothing else |
| TrackComplaint.TrackPage.Search | app/report/track/page.tsx:15-32 | a search only starts while no query is in flight (the button is disabled then, line 90); blank and malformed codes set their message and query nothing; a valid code clears message and result, sets loading and queries the checked code |
| TrackComplaint.TrackPage.Apply | app/report/track/page.tsx:18-32 | with no query in flight, a blank outcome sets the blank message, a malformed one the format message, both without a query or other change; a valid code sets loading, clears message and result and queries that code |
| TrackComplaint.TrackPage.FinishSearch | app/report/track/page.tsx:34-50 | the query in flight returns; a row becomes the result; no row sets the not-found message; a thrown call the connection message; loading ends in every case |
| JsText.Trim | app/report/track/page.tsx:18-25 | the trimmed text neither starts nor ends with white space |
| JsText.TrimCutsSpaceOnly | app/report/track/page.tsx:18-25 | the trimmed text is a slice of the input with only white space cut on either side |
| JsText.TrimIgnoresSurroundingSpace | app/report/track/page.tsx:25 | white space added around a text does not change its trimmed form |
| JsText.NumberText | app/admin/policies/page.tsx:240-250 | the text of an integer is non-empty and starts with a digit exactly when it is non-negative |
| JsText.ParseIntStopsAtNonDigit | app/admin/policies/page.tsx:53-54 | `parseInt` reads the decimal digits of a natural and stops at the first non-digit |
| JsText.ParseIntOfNumberText | app/admin/policies/page.tsx:53-54 | an integer written into a number field reads back as itself with `parseInt(…) \|\| 0`, and an empty field reads as 0 |
| Decimal.ToDecimal | components/campaign/CampaignHero.tsx:91 | `String(n)` is a non-empty digit string without leading zero, one character exactly below 10 |
| Decimal.ValueOfToDecimal | components/campaign/CampaignHero.tsx:91 | reading back `String(n)` gives n |
| Decimal.ToDecimalInjective | components/team/TeamSection.tsx:25-30 | distinct naturals are rendered differently |
| Decimal.PadStart2 | components/campaign/CampaignHero.tsx:91 | `padStart(2, "0")` keeps the text as a suffix, adds only zeros, and gives at least two characters |
| Decimal.PadStart2Value | components/campaign/CampaignHero.tsx:91 | the padded rendering still reads back as the number |
| ReportPage.ViewOfFaithful | app/report/page.tsx:74-102 | the three statuses show three different panels; the form only when idle |
| ReportPage.ReportPage.constructor | app/report/page.tsx:9-16 | idle, not loading, category "ทั่วไป" and other fields empty |
| ReportPage.ReportPage.Edit | app/report/page.tsx:119-158 | editing changes the draft only |
| ReportPage.ReportPage.StartSubmit | app/report/page.tsx:18-22 | only the shown form, while not loading (its button is disabled then), submits; loading is set and the current draft is inserted |
| ReportPage.ReportPage.FinishSubmit | app/report/page.tsx:24-34 | the insert in flight returns and loading ends; an error shows the error panel and keeps the draft; success shows the thank-you panel and resets the draft; both schedule a return to idle |
| ReportPage.ReportPage.IdleTimerFires | app/report/page.tsx:29-33 | the scheduled timeout brings back the form |
| ReportPage.FailThenRetry | app/report/page.tsx:18-35 | after a failure and its timeout the form is back with the typed draft and can be sent again |
| ComplaintForm.ComplaintForm.constructor | components/home/ComplaintForm.tsx:9-18 | idle, not loading, category "ทั่วไป" and other fields empty |
| ComplaintForm.ComplaintForm.Edit | components/home/ComplaintForm.tsx:105-156 | editing changes the draft only |
| ComplaintForm.ComplaintForm.StartSubmit | components/home/ComplaintForm.tsx:20-25 | only the shown form, while not loading (its button is disabled then), submits; loading is set and the draft is inserted |
| ComplaintForm.ComplaintForm.FinishSubmit | components/home/ComplaintForm.tsx:27-38 | the insert in flight returns and loading ends; an error keeps the draft and schedules nothing; success resets the draft and schedules the return to idle |
| ComplaintForm.ComplaintForm.IdleTimerFires | components/home/ComplaintForm.tsx:37 | the scheduled timeout returns to idle |
| ComplaintForm.FailKeepsForm | components/home/ComplaintForm.tsx:29-31 | after a failure the form stays on screen with the typed draft and no timeout is pending |
| AdminAnnouncements.FormCategoriesColoured | app/admin/announcements/page.tsx:19-25 | the form offers the public filters other than "all", the default among them, each with its own colour |
| AdminAnnouncements.ToPayload | app/admin/announcements/page.tsx:93-99 | the payload carries the form's fields; the image URL is null exactly when the field is empty |
| AdminAnnouncements.FormOf | app/admin/announcements/page.tsx:77-84 | editing copies the item's fields; a missing image URL becomes "" |
| AdminAnnouncements.EditRoundTrip | app/admin/announcements/page.tsx:77-99 | a saved form opened again shows the same fields; an item opened and saved unchanged is written back as it was, an empty image URL as null |
| AdminAnnouncements.SaveRequestChoice | app/admin/announcements/page.tsx:101-105 | the save is an update of the edited id exactly when that id is non-empty, otherwise an insert; both carry the payload |
| AdminAnnouncements.AdminAnnouncements.constructor | app/admin/announcements/page.tsx:38-69 | empty list, loading, form hidden, default fields, nothing edited, and the mount's first fetch requested |
| AdminAnnouncements.AdminAnnouncements.ApplyFetch | app/admin/announcements/page.tsx:51-65 | the list is the rows, or empty when the call threw; loading ends |
| AdminAnnouncements.AdminAnnouncements.ResetForm | app/admin/announcements/page.tsx:71-75 | default fields, no edited id, form hidden, nothing else changes |
| AdminAnnouncements.AdminAnnouncements.OpenNew | app/admin/announcements/page.tsx:146 | a reset form, shown |
| AdminAnnouncements.AdminAnnouncements.Edit | app/admin/announcements/page.tsx:184-230 | editing changes the form fields only |
| AdminAnnouncements.AdminAnnouncements.HandleEdit | app/admin/announcements/page.tsx:77-87 | the item's fields in the form, its id being edited, form shown |
| AdminAnnouncements.AdminAnnouncements.StartSubmit | app/admin/announcements/page.tsx:89-105 | only the shown form submits, and not while a save is in flight (its button is disabled then); a form missing its required title or content is not submitted; otherwise saving is set and the save request sent |
| AdminAnnouncements.AdminAnnouncements.FinishSubmit | app/admin/announcements/page.tsx:107-109 | saving ends, the form is reset and hidden, the list is fetched again whatever the save returned |
| AdminAnnouncements.AdminAnnouncements.HandleDelete | app/admin/announcements/page.tsx:112-116 | only a confirmed deletion is requested, followed by a refetch |
| AdminAnnouncements.AdminAnnouncements.HandleTogglePin | app/admin/announcements/page.tsx:118-121 | the negated pin value is written, then the list is fetched again |
| AdminAnnouncements.EditAndSave | app/admin/announcements/page.tsx:77-110 | editing an item and submitting unchanged sends an update of that item with its own fields |
| AdminPolicies.SelectValue | app/admin/policies/page.tsx:206-228 | a select submits its default value when that is an option, otherwise its first option |
| AdminPolicies.SaveUnchangedRoundTrip | app/admin/policies/page.tsx:48-56 | a policy opened and saved unchanged is written with its own fields (missing count as 0, unknown category as the first option, missing image URL as ""); a new one with the defaults "pending", 0, 0 |
| AdminPolicies.CategoryDefault | app/admin/policies/page.tsx:208-216 | `category \|\| "อาคารสถานที่"` in the select gives the category when offered, else the first option |
| AdminPolicies.SaveRequestChoice | app/admin/policies/page.tsx:58-70 | update of the edited id exactly when it is non-zero, else insert; an id of 0 is headed as an edit but inserted |
| AdminPolicies.AdminStatusLabelDistinct | app/admin/policies/page.tsx:136 | the three statuses get three different labels; any other string reads as pending |
| AdminPolicies.AdminPolicies.constructor | app/admin/policies/page.tsx:8-16 | empty list, loading, no modal, the first fetch requested |
| AdminPolicies.AdminPolicies.ApplyFetch | app/admin/policies/page.tsx:18-31 | rows replace the list, an error keeps it; loading ends |
| AdminPolicies.AdminPolicies.OpenEdit | app/admin/policies/page.tsx:77-80 | the chosen policy is edited and the modal opens |
| AdminPolicies.AdminPolicies.OpenCreate | app/admin/policies/page.tsx:82-85 | nothing is edited and the modal opens |
| AdminPolicies.AdminPolicies.CloseModal | app/admin/policies/page.tsx:182 | the modal closes; the edited policy stays set |
| AdminPolicies.AdminPolicies.HandleSave | app/admin/policies/page.tsx:45-75 | only the open modal's form submits; an empty title is refused by the browser; otherwise the save and a refetch are requested, the modal closes and the edited policy is cleared whatever the save returned |
| AdminPolicies.AdminPolicies.HandleDelete | app/admin/policies/page.tsx:33-43 | nothing unless confirmed; a failure alerts and does not refetch; a success refetches |
| AdminPolicies.EditAndSaveUnchanged | app/admin/policies/page.tsx:45-80 | opening a policy and saving it untouched updates that policy with its own fields |
| AdminMembers.SaveUnchangedRoundTrip | app/admin/members/page.tsx:47-55 | a member opened and saved unchanged is written with its own fields, a missing image URL as ""; a new one gets order 0 and cannot be submitted empty |
| AdminMembers.SaveRequestChoice | app/admin/members/page.tsx:57-67 | update of the edited id exactly when it is non-zero, else insert; both carry the submitted fields |
| AdminMembers.EmptyImageShowsPlaceholder | app/admin/members/page.tsx:120 | a member with no or an empty image URL is shown with the placeholder, otherwise with its URL |
| AdminMembers.AdminMembers.constructor | app/admin/members/page.tsx:8-16 | empty roster, loading, no modal, the first fetch requested |
| AdminMembers.AdminMembers.ApplyFetch | app/admin/members/page.tsx:17-30 | rows replace the roster, an error keeps it; loading ends |
| AdminMembers.AdminMembers.OpenEdit | app/admin/members/page.tsx:79-82 | the chosen member is edited and the modal opens |
| AdminMembers.AdminMembers.OpenCreate | app/admin/members/page.tsx:74-77 | nothing is edited and the modal opens |
| AdminMembers.AdminMembers.CloseModal | app/admin/members/page.tsx:145 | the modal closes; the edited member stays set |
| AdminMembers.AdminMembers.HandleSave | app/admin/members/page.tsx:44-72 | only the open modal's form submits; a form missing its required name, nickname or role is refused; otherwise the save and a refetch are requested, the modal closes and the edited member is cleared |
| AdminMembers.AdminMembers.HandleDelete | app/admin/members/page.tsx:32-42 | nothing unless confirmed; a failure alerts and does not refetch; a success refetches |
| AdminMembers.EditAndSaveUnchanged | app/admin/members/page.tsx:44-82 | opening a member and saving it untouched updates that member with its own fields |
| Announcements.CategoryColorFallback | app/announcements/page.tsx:184 | a known category gets its own colour, all different; anything else the default classes |
| Announcements.FilterCategory | app/announcements/page.tsx:101 | an item is in the result exactly when it is in the list with the category; the result is no longer than the list |
| Announcements.FilterCounts | app/announcements/page.tsx:101 | each item of the category is kept as many times as the list holds it, every other item is dropped |
| Announcements.FilterIsSubsequence | app/announcements/page.tsx:101 | the filtered items keep their original order |
| Announcements.VisibleFaithful | app/announcements/page.tsx:98-101 | "ทั้งหมด" shows the full list; any other tab shows each item of its category as often as the list holds it and nothing else; the shown list is always a subsequence of the full one, so it is the list `.filter` returns |
| Announcements.LoadedFallback | app/announcements/page.tsx:41-82 | non-empty rows are used; empty rows give the four mock items; a thrown call gives the empty list |
| Announcements.MockOnePerCategory | app/announcements/page.tsx:45-78 | each category tab shows exactly one of the mock items |
| NotificationBell.Take | components/admin/NotificationBell.tsx:26 | `.limit(n)` returns the first n rows, or all rows when there are at most n |
| NotificationBell.BadgeLabelFaithful | components/admin/NotificationBell.tsx:72-76 | the badge is shown exactly for a non-empty list; above nine it reads "9+", otherwise the count |
| NotificationBell.BadgeWithinPage | components/admin/NotificationBell.tsx:26-76 | with at most five rows the badge never reads "9+" |
| NotificationBell.NotificationBell.constructor | components/admin/NotificationBell.tsx:13-38 | empty list, closed, loading, one query started |
| NotificationBell.NotificationBell.StartFetch | components/admin/NotificationBell.tsx:18-20 | a query starts and loading is set |
| NotificationBell.NotificationBell.IntervalFires | components/admin/NotificationBell.tsx:42 | the interval starts a query |
| NotificationBell.NotificationBell.ApplyFetch | components/admin/NotificationBell.tsx:21-34 | rows replace the list, no data or an error keeps it; loading ends; the list stays within one page |
| NotificationBell.NotificationBell.ToggleDropdown | components/admin/NotificationBell.tsx:58-63 | the dropdown flips and only opening it starts a query |
| NotificationBell.NotificationBell.MouseDown | components/admin/NotificationBell.tsx:44-48 | a press outside closes the dropdown, one inside leaves it |
| NotificationBell.NotificationBell.CloseViaLink | components/admin/NotificationBell.tsx:117 | following an item link closes the dropdown |
| NotificationBell.ToggleTwice | components/admin/NotificationBell.tsx:58-63 | two clicks leave the dropdown as it was with exactly one query |
| CampaignHero.Tick | components/campaign/CampaignHero.tsx:18-29 | a difference at or below zero leaves the shown values unchanged |
| CampaignHero.SplitBySeconds | components/campaign/CampaignHero.tsx:24-27 | the split depends only on the whole seconds of the difference |
| CampaignHero.SecondsRecombine | components/campaign/CampaignHero.tsx:24-27 | days, hours, minutes and seconds of a number of seconds add back up to it |
| CampaignHero.SplitFaithful | components/campaign/CampaignHero.tsx:24-27 | hours below 24, minutes and seconds below 60, and the recombined total t satisfies t ≤ d < t + 1000 |
| CampaignHero.SplitSameSecond | components/campaign/CampaignHero.tsx:24-27 | two differences show the same countdown exactly when they fall in the same whole second |
| CampaignHero.Shown | components/campaign/CampaignHero.tsx:91 | each value is shown with at least two characters |
| CampaignHero.ShownFaithful | components/campaign/CampaignHero.tsx:91 | the shown days read back as the days; hours, minutes and seconds (and days below 100) take exactly two characters |
| CampaignHero.TwoDigits | components/campaign/CampaignHero.tsx:91 | a number below 100 is shown in exactly two characters |
| CampaignHero.InitialShowsZeros | components/campaign/CampaignHero.tsx:7-12 | before the first positive tick every field is 0 and shows "00", and a non-positive difference keeps it so |
| PolicyCard.StatusBadgeFaithful | components/policy/PolicyCard.tsx:7-39 | the label reads back as the status, the three statuses get different colours, and any other string is badged as pending |
| PolicyCard.ProgressBarMatchesBadge | components/policy/PolicyCard.tsx:91-92 | the bar is green exactly when the badge is green, exactly for "completed" |
| TeamSection.ShownFallback | components/team/TeamSection.tsx:19-34 | fetched members are shown as they are; otherwise the mock roster; something is always shown |
| TeamSection.MockRosterShape | components/team/TeamSection.tsx:23-32 | fifteen mock members, the one at index i with id i + 1 and order i; one leader, two deputies, then committee members |
| TeamSection.PrefixedNumberInjective | components/team/TeamSection.tsx:25-30 | the same text around two different numbers gives different texts |
| TeamSection.MockMembersDistinct | components/team/TeamSection.tsx:25-30 | no two mock members share a name, nickname, Instagram handle or image path |
| Marquee.Repeat | components/ui/Marquee.tsx:21 | n copies of the items are n times as long |
| Marquee.RepeatIndex | components/ui/Marquee.tsx:21 | position k of the repetition holds item k mod n |
| Marquee.ContentFaithful | components/ui/Marquee.tsx:21 | the strip is the items four times in order: four times as long, item k mod n at k, empty for no items |

## Left out

- Database calls, realtime channels and auth are foreign calls. Each request is an entry in a ghost log; what a call returns is a method parameter.
- Concurrency between devices is not modelled. The vote paths only state that the requested value is the supplied count plus one; the lost-update race is not modelled.
- Timers are events. The countdown and notification intervals are `Tick` and `IntervalFires`; the auto-idle timeouts are `IdleTimerFires`, with a ghost count of pending timeouts. Wall-clock time is not modelled, and the countdown's difference is a parameter.
- Floating point: the countdown's `Math.floor` over float division is integer division on whole milliseconds, which agrees with it for positive integer differences.
- JsText.NumberText and Decimal.ToDecimal: model `String(n)` on unbounded integers. JavaScript numbers lose integer precision above 2^53 and print in exponent form from 10^21 on; the counts, orders and progress values the pages handle stay far below that.
- JsText.ParseInt: parses as `parseInt` does for an optional sign followed by decimal digits. It does not model leading white space, a "0x" prefix or a radix. Those forms cannot come from a number field filled with an integer's text, and that is the only use the round-trip lemmas make of it.
- Browser-side number-field validation (min, max, step) is not modelled. Of the browser's constraint checks, only `required` is modelled, as the submittable checks in the admin and announcement forms.
- The complaint forms' `required` topic and message fields are not modelled. Their StartSubmit accepts any draft.
- Locale date formatting, relative times and `Math.random` are presentation only.
- The float animation of AnimatedCounter (components/council/CouncilHero.tsx) is not modelled.
- Navigation, scrolling, layout, the sidebar, the login page and the session check are not modelled. Their logic is routing or a foreign call.
- Presentational and fallback-only pages are not modelled: the home page, the team page, the policy section, the council sections, the database-connection page (app/test/page.tsx), the admin dashboard, settings and the config.
- A `null` select result is read as no rows, which every page except the notification bell treats the same way as an empty array. The bell keeps its list on `null` (`if (data)`) and empties it on `[]`, and its model keeps the two apart (`NoData` and `Data([])`).
- AdminPolicies.AdminPolicies.HandleSave and AdminMembers.AdminMembers.HandleSave: the save is modelled as one step. The page awaits the write with the modal still open and its submit button enabled, so a second click during the wait sends a second write. The model does not express that.
- Announcements.CategoryColor: `CATEGORY_COLORS[category] || default` is looked up on a plain object. A category named after an inherited `Object.prototype` member ("constructor", "toString", "valueOf", "hasOwnProperty", "__proto__" and the like) finds an inherited value rather than the default classes. The model gives every category outside the four known ones the default classes.
- TeamSection: the `loading` flag, which ends false on both branches, is not modelled, because the module models the roster choice as a pure function.
- The public announcements page's `activeCategory` state, which starts at "ทั้งหมด" and is only replaced wholesale, is the `active` parameter of `Visible`.
- PolicyPage: the voted list in local storage is kept as the list itself rather than its JSON text; `JSON.parse` of a corrupt entry is not modelled.
- Admin request logs: a save carries the submitted form fields; the row written is `RowOf` of them. The database's own coercion of values is not modelled.
- Handlers that only log to the console log nothing in the model, except PolicyVoting, which counts its logged errors.
