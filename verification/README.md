# MeetPass meeting workflow — a Dafny model

MeetPass is a web client in which students and staff schedule meetings. A student's
meeting request waits as *Pending* until a staff member approves or rejects it; a staff
member's own meeting is approved at once. Almost all of the client is markup and HTTP
calls. This project models the small deterministic logic inside it and proves properties
of that logic:

- the registration-number check of the sign-up form and the order of its checks
  (`signup.dfy`, module `Signup`);
- the `SJU-` meeting token built from a random base-36 numeral (`token.dfy`, module
  `MeetingToken`);
- the request the Schedule form posts, with its role-dependent initial status; the
  "upcoming" filter of the meeting list; the gate for the approve and reject buttons; the
  local list update after an approval or rejection; and the status text shown
  (`meetings.dfy`, module `Meetings`);
- the participant picker's add and remove (`multiselect.dfy`, module `MultiSelect`);
- the private-route guard, the catch-all redirect and sidebar visibility (`routing.dfy`,
  module `Routing`).

Supporting modules: `Wrappers` (Option and Result), `Seqs` (an order-preserving filter
with its subsequence, multiplicity and duplicate-freedom lemmas, shared by the upcoming
list and by removal from the picker) and `Text` (ASCII character classes, JavaScript's
`trim`, `slice`, `startsWith` and ASCII upper-casing).

Inputs that the client takes from the environment become parameters. The session's
email and role are `Option<string>` values (None when absent). "Now" is an integer
instant. A listed meeting's start time is the instant it parses to, or None. The random
number behind a token is given as its base-36 fraction digits.

The model follows the code, including where the code is looser than the workflow is usually described:

- A token does not always have three code characters. `slice(2, 5)` of a numeral with
  fewer than three fraction digits gives fewer (`ThreeCharCodeIffThreeDigits`).
- The Schedule form itself validates nothing. It sends no start-before-end check, and it
  sends the participant list even when the meeting is not a group meeting.
- Approving or rejecting does not check that the meeting is still pending. Only the
  button gate does, and no error exists for acting on a meeting that is no longer
  pending.
- The registration-number check runs before the check for empty fields. So the
  "empty registration number" test in the second check can never fire.

## Model

| member | source | states |
|---|---|---|
| Text.Trim | meetpass-frontend/src/App.js:537 | The trimmed text is an infix of the input with only white space cut off either side, starts and ends with a non-space, and is empty exactly when the input is all white space |
| Text.AsciiUpper | meetpass-frontend/src/App.js:390 | Upper-casing keeps the length and maps each ASCII lower-case letter to its upper-case letter, leaving every other character as it is |
| Seqs.Filter | meetpass-frontend/src/App.js:495 | `Array.prototype.filter`: the result holds each element passing the test as often as the input does and nothing else (order is kept, by `Seqs.FilterIsSubsequence`) |
| Text.Slice | meetpass-frontend/src/App.js:390 | `slice(from, to)` clamps both bounds to the length: inside the string it is the plain infix, its length is `min(to, len) - from` or 0, and character i is the input's character from + i |
| MeetingToken.DigitChar | meetpass-frontend/src/App.js:390 | `toString(36)` prints a digit below 10 as the ASCII digit of that value and a digit from 10 to 35 as the lower-case letter `a` to `z` at that offset |
| MeetingToken.RadixString | meetpass-frontend/src/App.js:390 | `Math.random().toString(36)` prints "0" when the number has no fraction digits and otherwise "0." followed by one character per fraction digit, in order |
| MeetingToken.MakeToken | meetpass-frontend/src/App.js:390 | A token starts with `SJU-` and is followed by one character of `[0-9A-Z]` per fraction digit, at most three |
| MeetingToken.ThreeCharCodeIffThreeDigits | meetpass-frontend/src/App.js:390 | The token has the full `SJU-` plus three characters shape exactly when the random numeral has at least three fraction digits |
| MeetingToken.DecodeMakeToken | meetpass-frontend/src/App.js:390 | Reading a token back gives the first (up to three) random digits it was built from |
| MeetingToken.SameTokenIffSamePrefix | meetpass-frontend/src/App.js:390 | Two random numbers give the same token exactly when the first (up to three) fraction digits their base-36 numerals print agree |
| Signup.RegnoPattern | meetpass-frontend/src/App.js:182 | The pattern accepts exactly the strings of at least five characters, all ASCII letters or digits, whose first character is a digit |
| Signup.MatchRegno | meetpass-frontend/src/App.js:182-183 | Scanning the registration number accepts exactly the strings of `^[0-9][A-Za-z0-9]{4,}$`: a digit, then at least four ASCII letters or digits, nothing else |
| Signup.SubmitSignup | meetpass-frontend/src/App.js:181-199 | A sign-up is posted, unchanged, exactly when the registration number matches the pattern and name, email, password and role are non-empty; the pattern error is reported exactly when the pattern fails, whatever else is empty |
| Signup.EmptyRegnoReportsPattern | meetpass-frontend/src/App.js:182-189 | An empty registration number reports the pattern error, not the missing-field error |
| Signup.NoLeadingDigitRefused | meetpass-frontend/src/App.js:182-185 | The registration number "ab12" is refused by the pattern check before any request |
| Meetings.InitialStatus | meetpass-frontend/src/App.js:395 | A new meeting is "Approved" exactly when the scheduler's role is "staff", and "Pending" for every other role, a missing one included |
| Meetings.ScheduleRequest | meetpass-frontend/src/App.js:393-395 | The posted request carries the form's fields unchanged, the session email as scheduler, the token shown, and status "Approved" iff the role is "staff", else "Pending"; it has no approver field |
| Meetings.ActionsOffered | meetpass-frontend/src/App.js:518 | On a card of the upcoming list, the approve and reject buttons are offered exactly when the viewer's role is "staff" and the stored status is exactly "Pending"; an offered meeting is shown as "Pending" |
| Meetings.OnlyStaffOfferedActions | meetpass-frontend/src/App.js:518 | Only a staff viewer is ever offered the approve and reject buttons; a student never is |
| Meetings.NewMeetingActionable | meetpass-frontend/src/App.js:395 | A meeting still in its initial status is offered for approval exactly when a staff member views a meeting that a non-staff scheduler created |
| Meetings.HandleAction | meetpass-frontend/src/App.js:483-487 | After an approval or rejection the list keeps its length and order; each meeting whose id is `===` to the acted-on id (a string, null or missing) takes the action as status and the viewer's email as approver, with its other fields kept; every other meeting is unchanged |
| Meetings.ActionOnMissingIdHitsAllMissing | meetpass-frontend/src/App.js:487 | Acting on a meeting listed without an id updates every meeting listed without an id and no meeting whose id is a string or null |
| Meetings.HandleActionClosesGate | meetpass-frontend/src/App.js:487 | After an approval or rejection no viewer is offered buttons for the acted-on meeting, and every other meeting keeps the gate it had |
| Meetings.HandleActionIdempotent | meetpass-frontend/src/App.js:487 | Repeating the same approval or rejection changes the list no further |
| Meetings.IsUpcoming | meetpass-frontend/src/App.js:495 | A meeting is upcoming only when it has a start time strictly after now; one without a parsable start time, or starting exactly now, is not |
| Meetings.Upcoming | meetpass-frontend/src/App.js:494-495 | The shown list is a subsequence of the fetched list holding each meeting with a start time strictly after now, as often as it was fetched, and nothing else; past meetings are hidden even when pending |
| Meetings.UpcomingAfterAction | meetpass-frontend/src/App.js:487-495 | Filtering the list after an approval or rejection equals applying that approval or rejection to the filtered list |
| Meetings.DisplayStatus | meetpass-frontend/src/App.js:515 | The shown status is never empty: it is the stored status when that is non-empty and "Pending" when it is missing or empty |
| Meetings.OfferedMeansShownPending | meetpass-frontend/src/App.js:515-518 | A meeting offered for approval is shown as "Pending"; a meeting without a status is shown as "Pending" yet offers no buttons |
| Meetings.StudentRequestApprovedByStaff | meetpass-frontend/src/App.js:483-521 | A student's new meeting that starts after now is in the upcoming list with the buttons shown to staff; after a staff member approves it, it is "Approved" with that member as approver and no longer offered |
| Meetings.ButtonsShown | meetpass-frontend/src/App.js:506-521 | The buttons are on screen for a meeting only when it is a fetched meeting starting after now (a card of the upcoming list), the viewer is staff, and it is shown as "Pending" |
| Meetings.ButtonsShownIff | meetpass-frontend/src/App.js:495-518 | A meeting has the buttons on screen exactly when it was fetched, starts strictly after now, the viewer is staff and its status is exactly "Pending"; a pending meeting in the past or without a parsable start is never offered |
| MultiSelect.Add | meetpass-frontend/src/App.js:536-541 | Adding appends exactly the trimmed text, and only when it is non-empty and not yet chosen, then clears the box; otherwise list and box are unchanged; the old list stays a prefix, the length grows by at most one, and a duplicate-free list stays duplicate-free |
| MultiSelect.AddIdempotent | meetpass-frontend/src/App.js:536-541 | Pressing add a second time changes nothing |
| MultiSelect.AddSameTextTwice | meetpass-frontend/src/App.js:537-539 | Adding the same text twice gives the same list as adding it once |
| MultiSelect.Remove | meetpass-frontend/src/App.js:542 | Removing drops every occurrence of the value, keeps every other value in order and in number, and keeps a duplicate-free list duplicate-free |
| MultiSelect.RemoveUndoesAdd | meetpass-frontend/src/App.js:536-542 | Removing a value that was just added restores the list |
| MultiSelect.RemoveIdempotent | meetpass-frontend/src/App.js:542 | Removing the same value twice is removing it once |
| Routing.SignedIn | meetpass-frontend/src/App.js:563 | The session counts as signed in exactly when the stored email is neither null nor the empty string, the two falsy values it can take |
| Routing.Private | meetpass-frontend/src/App.js:562-563 | The guard draws the page exactly when the session holds a non-empty email and otherwise redirects to the login page |
| Routing.Route | meetpass-frontend/src/App.js:576-585 | Protected pages are drawn exactly when signed in and otherwise redirect to login; public pages are always drawn; any other path redirects to home when signed in and to login otherwise |
| Routing.RouteSettlesAfterOneRedirect | meetpass-frontend/src/App.js:585 | Every redirect lands on a page that is drawn, so routing never loops |
| Routing.SignedOutSeesLogin | meetpass-frontend/src/App.js:563 | With no email in the session, or an empty one, every protected page redirects to the login page |
| Text.StartsWith | meetpass-frontend/src/App.js:570 | `startsWith` holds exactly when the prefix is no longer than the string and agrees with it character by character |
| Routing.HideSidebar | meetpass-frontend/src/App.js:569-570 | The sidebar is hidden exactly on paths starting with "/login", "/signup", "/forgot-password" or "/reset-password" |
| Routing.SidebarShown | meetpass-frontend/src/App.js:569-574 | The sidebar is drawn exactly when the path is not hidden and the session is signed in (the `!email` check at line 80); so it is drawn, when signed in, on every path starting with "/home", "/schedule", "/view-meetings" or "/dashboard/" |
| Routing.SidebarHiddenOnAuthPages | meetpass-frontend/src/App.js:569-570 | The sidebar is hidden, whatever the session, on every path starting with "/login", "/signup", "/forgot-password" or "/reset-password" |

## Left out

- All HTTP calls: login, sign-up, password reset, dashboard, meeting create, list and update. They are network I/O; the model covers what happens after a successful response and the checks before a request.
- Session and local storage. The email and role are parameters. The login page's write of the registration number to local storage is not modelled, and neither is a login-to-session lifecycle, since nothing in the file fills the session.
- `Math.random` and date parsing. The random number enters as its base-36 fraction digits, and start times as parsed instants. Any digit sequence is admitted, which includes some that no double produces.
- Browser form checks (`required`, `type="email"`, `datetime-local`). These are HTML behaviour, not code in the file.
- A guarded approve/reject that refuses non-pending meetings. The code has none, so none is modelled.
- Rendering, hooks, styles, status colours, `window.confirm`, `alert` and navigation. These are UI concerns. The home and dashboard pages only display data.
- Router path matching (case, trailing slashes, parameter segments). Paths enter as an already matched `Routing.Path`. Only the sidebar's `startsWith` test is modelled on raw strings.
- Text.AsciiUpper: upper-cases ASCII letters only, not all of Unicode as `toUpperCase` does. It is only applied to base-36 digit strings, where the two agree.
- Meetings.Meeting: an id is a string, null or missing; status and approver are strings or absent; the start time is the instant it parses to, or absent; the other listed fields are strings. Fields the list view never reads (end time, group flag, participants) are omitted, although the server returns them and the update at App.js:487 carries them along unchanged. Values of other JavaScript types (a numeric id, say) are not modelled.
