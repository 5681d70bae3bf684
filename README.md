# Campus Poll Hub front end — a verified model

This project models the client side of a campus polling system: the
session context that logs users in and out and keeps the session in browser
storage, the login page, and the three role dashboards (Admin, Staff,
Student). It covers what the dashboards do when they mount, fetch, create,
delete and vote.

The network, `window.confirm`, `alert`, `navigate` and the clock are not
executed. They are modelled as follows:

- A server reply (or its absence, for a failed request) is a parameter of the
  method that awaits it.
- Every dashboard keeps a log of the requests it has issued (`sent`) and of
  the messages it has alerted (`alerts`). The login page keeps neither: its
  request is logged in the auth provider's own `sent`.
- The last route a page navigated to is `navigatedTo`.
- The current time is an integer `now`.

Modules, one per source file plus shared pieces:

- `Text`: JavaScript `trim` and `toLowerCase`.
- `Domain`: records, requests, JavaScript truthiness and the `a || b` fallback, and `Date` values that may be NaN.
- `Polls`: the active and closed filters and a poll's vote total.
- `Guards`: role-to-route after login, and each dashboard's mount guard.
- `Session`: browser storage, the auth context, and the request interceptor's bearer header.
- `Login`: the login page.
- `Results`: the results modal shared by the Admin and Staff dashboards.
- `Staff`, `Student`, `Admin`: the dashboards.

Where the code and the product description disagree, the model follows the
code:

- The Student page admits any signed-in user, whatever the role.
- The Staff page also admits Admin.
- `createPoll` does not check the option count itself. The two-option floor
  is kept by the form, through `deleteOption`.

## Model

| member | source | states |
|---|---|---|
| Text.StartIndex | src/pages/Login.jsx:28-29 | The scan for the start of the trimmed text stops at the first non-whitespace character, having passed only whitespace |
| Text.EndIndex | src/pages/Login.jsx:28-29 | The scan for the end of the trimmed text stops just after the last non-whitespace character, having passed only whitespace |
| Text.TrimSpec | src/pages/Login.jsx:28-29 | `trim()` gives a contiguous piece of the input with only whitespace cut off on either side and no whitespace at either end; it is empty exactly when the input is all whitespace |
| Text.TrimIdempotent | src/pages/Login.jsx:29 | Trimming a trimmed string changes nothing |
| Text.TrimOfClean | src/pages/Login.jsx:28 | A string with no whitespace at either end is its own trim |
| Text.ToLower | src/pages/Login.jsx:28 | `toLowerCase()` keeps the length, leaves no ASCII capital, and maps every character through the per-character lowering |
| Text.ToLowerIgnoresCase | src/pages/Login.jsx:28 | Two strings that differ only in ASCII letter case lower-case to the same string |
| Text.ToLowerKeepsWhitespace | src/pages/Login.jsx:28 | Lower-casing neither creates nor removes whitespace at any position |
| Text.ToLowerIdempotent | src/pages/Login.jsx:28 | Lower-casing twice is lower-casing once |
| Domain.OrFallback | src/pages/staff.jsx:84 | `err.response?.data?.message \|\| fallback` is always truthy: it is the server message when that is truthy and the fallback otherwise |
| Polls.ActivePolls | src/pages/staff.jsx:116 | The active filter keeps exactly the polls whose end time is later than now, and never grows the list |
| Polls.ClosedPolls | src/pages/staff.jsx:117 | The closed filter keeps exactly the polls whose end time is at or before now |
| Polls.ActiveOrClosed | src/pages/staff.jsx:116-117 | No poll is both active and closed; with a parsed end time it is exactly one; a poll at its exact end instant is closed; an unparsable end time is neither |
| Polls.ActivePollsAppend | src/pages/AdminDashboard.jsx:94 | The active filter distributes over concatenation, so it keeps the original order |
| Polls.ActiveClosedPartition | src/pages/staff.jsx:116-117 | The active and closed counts add up to at most the poll count, and to exactly it iff every end time parsed |
| Polls.FoldVotesIsSum | src/pages/staff.jsx:174 | The `reduce` over options adds every option's vote count to its starting value |
| Polls.TotalVotesIsSum | src/pages/staff.jsx:174 | A card's total is the sum of its options' counts: non-negative when the counts are, zero when nobody voted |
| Polls.SumBounds | src/pages/staff.jsx:174 | The sum of counts is non-negative when every count is, and zero when every count is zero |
| Guards.RouteForRole | src/pages/Login.jsx:34-40 | Admin goes to /admin, Student to /student, Staff to /staff; any other role navigates nowhere and never to "/" |
| Guards.MountGuard | src/pages/AdminDashboard.jsx:42-48 | Admin fetches iff the user is Admin; Staff (staff.jsx:44-50) iff Staff or Admin; Student (Student.jsx:50-56) iff any user; every refusal goes to "/" |
| Guards.GuardsNest | src/pages/staff.jsx:44-50 | Whoever the Admin page admits the Staff page admits, and whoever the Staff page admits the Student page admits |
| Guards.LoginLandsOnAdmittingPage | src/pages/Login.jsx:34-40 | A login with a known role lands on a page whose guard admits that user |
| Guards.StudentPageIgnoresRole | src/pages/Student.jsx:50-56 | The Student page admits any session; a non-Admin is turned away from the Admin page and a Student from the Staff page |
| Session.BrowserStorage.SetItem | src/context/AuthContext.jsx:22 | The key is bound to the value and every other key is unchanged |
| Session.BrowserStorage.RemoveItem | src/context/AuthContext.jsx:42 | Exactly the key is removed |
| Session.StoredSession | src/context/AuthContext.jsx:10-16 | The session a page load starts from is the record under 'currentUser' when that key is present, and none otherwise |
| Session.AuthorizationHeader | src/api.js:9-14 | A "Bearer " + token header is sent iff the stored session has a non-empty token; it is read from storage, not from memory |
| Session.AuthProvider.Mount | src/context/AuthContext.jsx:10-16 | The stored session, if any, becomes the user; loading ends either way; nothing is sent |
| Session.AuthProvider.Authenticate | src/context/AuthContext.jsx:18-38 | On acceptance the response is returned, becomes the user and is stored under 'currentUser'; on rejection nothing changes and the message or fallback is thrown |
| Session.AuthProvider.Login | src/context/AuthContext.jsx:18-27 | One POST /auth/login; the success and failure effects of Authenticate, with fallback 'Login failed' |
| Session.AuthProvider.Register | src/context/AuthContext.jsx:29-38 | One POST /auth/register; the same effects, with fallback 'Registration failed' |
| Session.AuthProvider.Logout | src/context/AuthContext.jsx:40-43 | The user is cleared and only the 'currentUser' key is removed, so a reload finds no session |
| Session.LogoutTwice | src/context/AuthContext.jsx:40-43 | Logging out twice leaves exactly what one logout leaves: no user, only 'currentUser' removed, nothing sent, loading untouched |
| Session.LoginSurvivesReload | src/context/AuthContext.jsx:10-27 | After a successful login, a fresh provider mounted on the same storage starts with that user |
| Login.NormalisedEmail | src/pages/Login.jsx:28 | The submitted e-mail is no longer than typed, has no ASCII capital and no surrounding whitespace, and is empty iff only whitespace was typed |
| Login.NormalisedPassword | src/pages/Login.jsx:29 | The submitted password is the contiguous piece of the typed one between its whitespace runs; no letter changes case |
| Login.SameEmailIgnoringCase | src/pages/Login.jsx:28 | E-mails that differ only in ASCII case submit the same address |
| Login.NormaliseIdempotent | src/pages/Login.jsx:28-29 | Normalising already normalised credentials changes nothing |
| Login.DisplayedError | src/pages/Login.jsx:42 | A thrown string is shown as is; anything else shows 'Invalid email or password' |
| Login.FailedLoginText | src/pages/Login.jsx:41-43 | A failed login never shows an empty error: a non-empty server string, else 'Login failed', and 'Invalid email or password' only for a truthy non-string message |
| Login.LoginPage.HandleChange | src/pages/Login.jsx:17-22 | Only the named field changes |
| Login.LoginPage.HandleLogin | src/pages/Login.jsx:24-44 | The normalised credentials are posted; success stores the session and navigates by role; failure shows a non-empty error and leaves the session and route alone; the provider's loading flag is untouched |
| Login.StaffSignsIn | src/pages/Login.jsx:38-39 | A Staff user who signs in lands on /staff with no error |
| Results.ResultsModal.Open | src/pages/staff.jsx:59-61 | The modal opens, loading, with no results |
| Results.ResultsModal.Settle | src/pages/staff.jsx:62-69 | A reply becomes the results; a failure closes the modal and keeps the old results; loading ends either way |
| Results.ResultsModal.Close | src/pages/AdminDashboard.jsx:231 | Only the modal's visibility changes |
| Staff.KeepOthersRemovesOne | src/pages/staff.jsx:112 | The positional filter removes exactly the element at the index, keeping the rest in order, and removes nothing when the index is out of range |
| Staff.KeepOthersInRange | src/pages/staff.jsx:112 | For an index inside the list, the filter yields the elements before it followed by the elements after it |
| Staff.KeepOthersOutOfRange | src/pages/staff.jsx:112 | For an index outside the list, the filter keeps every element |
| Staff.DeleteOptionEffect | src/pages/staff.jsx:107-114 | With two or fewer options the form is unchanged; otherwise exactly the indexed option goes and every other field stays |
| Staff.UpdateOptionEffect | src/pages/staff.jsx:101-105 | Entry i becomes the new value; the length, every other entry and every other field stay |
| Staff.OptionCountAfterEdit | src/pages/staff.jsx:101-114 | Adding grows the list by one, deleting shrinks it by at most one and not at all at two options, every other edit keeps its length |
| Staff.EditsKeepTwoOptions | src/pages/staff.jsx:107-111 | From a form with two or more options, no sequence of edits leaves fewer than two |
| Staff.AnyBlankMeaning | src/pages/staff.jsx:73 | `options.some(o => !o.trim())` holds iff some option is all whitespace |
| Staff.CanSubmitMeaning | src/pages/staff.jsx:73-76 | The form passes iff the title, start and end times are non-empty and no option is blank after trimming; the title is not trimmed and the option count is not checked |
| Staff.WhitespaceTitlePasses | src/pages/staff.jsx:73 | A title of spaces passes the check (it is not trimmed) while an option of spaces fails it |
| Staff.BlankDraftRejected | src/pages/staff.jsx:21-30 | The initial form has two options and cannot be submitted |
| Staff.StaffDashboard.FetchPolls | src/pages/staff.jsx:32-42 | One GET /polls; the list is replaced on success, the error banner is set on failure, and loading ends either way |
| Staff.StaffDashboard.Mount | src/pages/staff.jsx:44-50 | A user who is neither Staff nor Admin is sent to "/" with nothing fetched; otherwise the polls are fetched |
| Staff.StaffDashboard.HandleLogout | src/pages/staff.jsx:52-55 | The session is cleared from memory and only the 'currentUser' key leaves storage; the provider sends nothing and its loading flag is untouched; the page goes to "/" |
| Staff.StaffDashboard.OpenForm | src/pages/staff.jsx:131 | The authoring form is shown |
| Staff.StaffDashboard.EditField | src/pages/staff.jsx:213-278 | A field input replaces that field and leaves the options alone |
| Staff.StaffDashboard.AddOption | src/pages/staff.jsx:310 | A blank option is appended and the two-option floor still holds |
| Staff.StaffDashboard.UpdateOption | src/pages/staff.jsx:101-105 | Entry i becomes the value, every other entry stays, and the floor still holds |
| Staff.StaffDashboard.DeleteOption | src/pages/staff.jsx:107-114 | Refused with the alert iff two or fewer options remain; otherwise the indexed option is removed; the floor holds |
| Staff.StaffDashboard.ResetForm | src/pages/staff.jsx:88-99 | The form returns to the initial blank form with two options |
| Staff.StaffDashboard.CreatePoll | src/pages/staff.jsx:72-86 | An invalid form alerts and sends nothing; a valid one is submitted with the effects `Submitted` states; the two-option floor holds |
| Staff.StaffDashboard.Submit | src/pages/staff.jsx:78-85 | The form is posted; on success the form closes, resets and the list is re-fetched; on failure the message or fallback is alerted and the form stays |
| Staff.StaffDashboard.ViewResults | src/pages/staff.jsx:57-70 | One results request; the modal shows the reply, or closes after the Staff alert; loading ends |
| Student.HasVoted | src/pages/Student.jsx:59 | True iff some history entry refers to the poll, as a populated poll or as a bare id |
| Student.FirstVoteIndex | src/pages/Student.jsx:228 | `find` stops at the first history entry that refers to the poll, and finds one iff the student has voted |
| Student.FirstVoteIsUnique | src/pages/Student.jsx:228 | Any entry that refers to the poll with none before it is the one `find` returns |
| Student.ViewOption | src/pages/Student.jsx:245-260 | The pending option is 'voting-active' and never class-disabled; other options of a locked poll are 'disabled'; the first recorded vote's option is 'selected-option' unless pending; every button of a locked poll is disabled; counts show only after voting with live results |
| Student.PendingPollView | src/pages/Student.jsx:229-253 | While a poll's vote is pending all its buttons are disabled, the pending one is active and the rest are greyed |
| Student.OpenPollView | src/pages/Student.jsx:245-256 | A poll neither voted nor pending renders every option as a plain enabled button without counts |
| Student.Merge | src/pages/Student.jsx:97 | `{ ...user, ...res.data }`: each of the eight session fields is the response's when the response carries it and the session's when it does not |
| Student.ProfileOnlyKeepsIdentity | src/pages/Student.jsx:97 | A response with only profile fields keeps the session's id, name, e-mail, role and token; a response carrying a role or token replaces it |
| Student.MergeIdempotent | src/pages/Student.jsx:97 | Merging the same response twice is merging it once |
| Student.SaveProfileAsWritten | src/pages/Student.jsx:98 | The save adds or replaces the key "user" with the merged record and leaves every other key as it was |
| Student.ProfileSaveLostOnReload | src/pages/Student.jsx:98-101 | After the save and reload, the session is the one from before the save, because 'currentUser' was not written |
| Student.ProfileSaveLostExample | src/pages/Student.jsx:98-101 | A student who saves a roll number and reloads still has none |
| Student.SaveProfileToSession | src/pages/Student.jsx:98 | The corrected save binds 'currentUser' to the merged record and leaves every other key as it was |
| Student.CorrectedSaveSurvivesReload | src/context/AuthContext.jsx:10-16 | With the corrected key, the reload starts from exactly the merged profile: a returned roll number is kept, and the id and token stay the session's unless the response carries them |
| Student.Reload | src/pages/Student.jsx:50-56 | A page load of /student runs the page's guard before the provider's mount effect (AuthContext.jsx:10-16), so it goes to "/" with nothing sent even when storage holds a session; the provider then holds the stored session |
| Student.SaveThenReload | src/pages/Student.jsx:92-104 | With the corrected key, the reload after a save holds the merged profile in the session, but the reloaded page has gone to "/" |
| Student.ProfileFormOf | src/pages/Student.jsx:35-41 | Each form field is the session's field, or "" when the session lacks it |
| Student.StudentDashboard.FetchData | src/pages/Student.jsx:24-48 | Both GETs go out and the page ends as `Fetched` states: polls, history and badges are replaced on success (missing lists become empty) and the form is re-seeded; on failure the banner is set only if no polls are shown; loading ends |
| Student.StudentDashboard.Mount | src/pages/Student.jsx:50-56 | Without a session the page goes to "/" and sends nothing and changes no data; with any session it fetches and ends as `Fetched` states |
| Student.StudentDashboard.HandleVote | src/pages/Student.jsx:58-69 | A vote request is issued iff the poll is neither voted nor pending; then the lock records the option and exactly one request is in flight for it |
| Student.StudentDashboard.SettleVote | src/pages/Student.jsx:67-84 | The answer is handled as `VoteReplyHandled` states, then the poll's lock entry, and only it, is removed, keeping one request in flight per pending poll |
| Student.StudentDashboard.HandleVoteReply | src/pages/Student.jsx:69-77 | Acceptance announces a non-empty badge and re-fetches, ending as `Fetched` states for every list, the form and the banner; rejection alerts the message or fallback, sends nothing and leaves every list, the form, the banner and loading as they were |
| Student.ReleaseLock | src/pages/Student.jsx:79-83 | Deleting the poll's entry from the lock removes exactly one copy of it from the in-flight count |
| Student.StudentDashboard.HandleLogout | src/pages/Student.jsx:87-90 | The session is cleared from memory and only the 'currentUser' key leaves storage; the provider sends nothing and its loading flag is untouched; the page goes to "/" |
| Student.StudentDashboard.SaveProfile | src/pages/Student.jsx:92-109 | The form is sent; success writes the merged record under 'currentUser' (the corrected key, see Findings) and requests a reload; failure alerts; the editor and menu close either way |
| Student.AtMostOneInFlight | src/pages/Student.jsx:61-65 | While the lock invariant holds, a poll has at most one vote request in flight, and one exactly when it is pending |
| Student.DoubleClick | src/pages/Student.jsx:58-65 | Two clicks on one poll before an answer issue at most one request, and the second is always refused |
| Admin.DeletableIds | src/pages/AdminDashboard.jsx:199-215 | The ids behind delete buttons are exactly those of rows whose role is not Admin |
| Admin.NoAdminOnlyIdDeletable | src/pages/AdminDashboard.jsx:211 | An id carried only by Admin rows has no delete button |
| Admin.CardLabel | src/pages/AdminDashboard.jsx:165-171 | A card is badged '● ACTIVE' iff the poll is active and 'CLOSED' otherwise |
| Admin.LiveCountMatchesBadges | src/pages/AdminDashboard.jsx:94 | The live-poll stat equals the number of cards badged active |
| Admin.InvalidEndTimeShownClosed | src/pages/AdminDashboard.jsx:165-171 | A poll whose end time does not parse is badged 'CLOSED' yet is in neither filter |
| Admin.AdminDashboard.FetchData | src/pages/AdminDashboard.jsx:22-40 | The three GETs go out and the page ends as `Fetched` states: all lists are replaced on success, none on failure and the banner is set; success keeps an earlier error; loading ends |
| Admin.AdminDashboard.Mount | src/pages/AdminDashboard.jsx:42-48 | A non-Admin is sent to "/" with nothing sent and no data, banner or loading flag changed; an Admin's page fetches and ends as `Fetched` states |
| Admin.AdminDashboard.HandleDeletePoll | src/pages/AdminDashboard.jsx:50-59 | Declining changes nothing and sends nothing; success sends the DELETE then re-fetches, ending as `Fetched` states for users, polls, stats, banner and loading; failure alerts the message or 'Error deleting poll' and changes no data |
| Admin.AdminDashboard.HandleDeleteUser | src/pages/AdminDashboard.jsx:61-70 | The same confirmation, request and outcomes for a user (success re-fetches all three lists as `Fetched` states), with 'Error deleting user' |
| Admin.AdminDashboard.ViewResults | src/pages/AdminDashboard.jsx:77-90 | One results request; the modal shows the reply, or closes after the Admin alert; loading ends |
| Admin.AdminDashboard.HandleLogout | src/pages/AdminDashboard.jsx:72-75 | The session is cleared from memory and only the 'currentUser' key leaves storage; the provider sends nothing and its loading flag is untouched; the page goes to "/" |

## Left out

- Rendering, CSS and markup are not modelled. Only the values a component derives for display are: button classes, the disabled attribute, card badges and the stat counts.
- The HTTP transport, JSON encoding and `localStorage` serialisation are not modelled. Stored values are records, and a reply is a value or the absence of one.
- `Promise.all` runs its requests concurrently and rejects on the first failure. Each fetch is modelled as one all-or-nothing reply.
- Interleavings of two different polls' vote requests are not modelled beyond the per-poll lock (`HandleVote`/`SettleVote`).
- React batches state updates and reads stale closure values, for example `polls.length` and `loading` inside the Student `fetchData`. The model reads the current field.
- The 600 ms delay before a vote is posted is timing only and is not modelled.
- `window.location.reload()` is recorded as a flag (`reloadRequested`). A reload of the Student page is `Student.Reload`: the page's guard effect runs before the provider's mount effect.
- Reloading the Staff or Admin dashboard is not modelled as a method. It goes the same way as `Student.Reload`: their guard effects (staff.jsx:44-50, AdminDashboard.jsx:42-48) also run before the provider's effect, see no user, and navigate to "/". `Session.LoginSurvivesReload` and `Student.CorrectedSaveSurvivesReload` speak of the provider's session only, not of the page the reload ends on.
- Text.ToLower: lowers ASCII capitals only, because full Unicode case mapping is outside this model.
- The whitespace `trim` strips is the fixed ECMAScript list of characters written out in `Text.IsWhitespace`; later Unicode additions to the space category are not tracked.
- Polls.ActiveClosedPartition: holds for one clock reading. The pages evaluate `new Date()` afresh in each filter callback (staff.jsx:116-117, AdminDashboard.jsx:94 and :165), so a poll whose end falls between the active pass and the closed pass is counted in both lists; the model fixes one `now` per render.
- Dates are integers of milliseconds or NaN. Parsing of date strings is not modelled, and the poll's start time is not used by the filters.
- Numbers are unbounded integers. JavaScript's floating-point vote sums are not modelled.
- Staff.StaffDashboard.UpdateOption: requires an index inside the list. The page only calls it from an existing option row, and JavaScript's write past the end (which would leave holes) is not modelled.
- Student.StudentDashboard.SaveProfile: writes 'currentUser' rather than the "user" key the code uses (see Findings); the code's behaviour is `Student.SaveProfileAsWritten`. It also requires a signed-in session. The spread of a null user, which would produce a record with only the response fields, is not modelled.
- Student.Merge: a response field is either present with a value or absent. A field sent back as `null` or `undefined`, which the spread would copy over the session's, is not modelled, and neither are response properties outside the session record.
- Student.StudentDashboard.SettleVote: requires that a request for the poll is in flight, which is how the handler reaches its second half.
- Register.jsx is not part of this model: the whole file is commented out, and even its commented code writes a "users" array to `localStorage` without calling the auth context. `Session.AuthProvider.Register` (AuthContext.jsx:29-38) has no caller in the source.
- App.jsx's routing table is not part of this model beyond the four routes in `Guards.Route`.
- The profile menu toggle, the tab switch and the edit-form inputs of the Student page are plain state setters with no logic and are not modelled.

## Findings

| source | as written | input that shows it | evidently intended | confidence | as-written member | corrected member |
|---|---|---|---|---|---|---|
| src/pages/Student.jsx:98 | The profile save writes the merged record under storage key "user", while the session is read from 'currentUser' (AuthContext.jsx:11) | A student without a roll number saves "R-17" and the page reloads; the session still has no roll number (the reloaded page also lands on "/", see `Student.Reload`) | Write the merged record under 'currentUser' so the reload picks it up | high, not executed | Student.ProfileSaveLostOnReload | Student.CorrectedSaveSurvivesReload |
