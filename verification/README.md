# Music competition: submission store and workflow rules

This project models the client-side core of a small music-competition app. It has three roles:

- contestants submit tracks;
- an admin assigns each submission to a judge from a fixed roster;
- a judge rates the submissions assigned to them and leaves feedback.

Everything lives in one shared store: the list of submission records, the judge roster and the signed-in session (a role and a user id). The store loads from local storage, falls back to seed data, and writes every change back. The screens sit on top of it:

- the admin dashboard splits the submissions by status;
- the judge panel filters them by the signed-in user;
- the assign and rate screens run guarded commands that patch one submission;
- the role screen derives a user id and a route.

Modules:

- `Optional`: the option type.
- `Seqs`: the array `filter` and `find` of JavaScript as functions, with their order and membership laws.
- `Text`: decimal numerals, `padStart`, and `trim` over the ECMAScript white-space set.
- `Records`: submission, judge, and the partial record (`Patch`) spread over a submission.
- `Mocks`: the seed roster and submissions.
- `AppContext`: the load rules, and the class `Store` with `addSubmission`, `updateSubmission`, `selectRole` and `clearRole`.
- `AdminDashboard`, `JudgePanel`: the screens that only derive values.
- `AssignJudge`, `RateSubmission`: the two screens with component state. Each is a class holding the store.
- `RoleSelection`: the user-id derivation and the redirect.

Modelling choices:

- Storage is a ghost field of the store: what each key last had written to it. `JSON.parse` is a parameter of the load rule. `Date.now()` is a parameter of `handleRoleSelect`.
- `status` stays a free string, since a collection read back from storage may hold anything. `KnownStatus` names the three values the screens know.
- The comparisons are strict (`===`), but some keys they read may be undefined, and some tests rely on truthiness. Both are written out:
  - `s.assignedJudgeId === id` never matches on a record with no judge, since the key is then undefined;
  - a rating counts as true when it is present and not zero;
  - an empty role string counts as false.

Status changes are not forward-only. The admin can open any submission for assignment, a judged one included (app/admin.jsx:35). Assigning then sets its status back to `assigned` while keeping its rating (app/assign.jsx:38-41, `AssignJudge.ReassigningJudgedSubmission`).

A further consequence of the code, proved rather than assumed: a judge signs in as `j` followed by the timestamp, while the roster ids are `j1`, `j2` and `j3`. So whenever every assigned judge id names a roster judge, a judge signed in at any timestamp from 10 on sees an empty panel (`RoleSelection.JudgeSessionMatchesNoRosterJudge`).

## Model

| member | source | states |
|---|---|---|
| Records.Merge | contexts/AppContext.jsx:78 | `{ ...s, ...p }`: a patch without an id keeps the id; a status or judge id the patch carries is taken; `{}` changes nothing (every key: `Records.MergeFields`) |
| Records.MergeFields | contexts/AppContext.jsx:78 | each key the patch carries takes the patch's value; every other key keeps the record's |
| Records.MergeNoChanges | contexts/AppContext.jsx:78 | spreading `{}` leaves a record unchanged |
| Records.MergeIdempotent | contexts/AppContext.jsx:78 | spreading the same patch twice is spreading it once |
| Records.MergeThen | contexts/AppContext.jsx:78 | two spreads in a row equal one spread of the combined patch, the later keys winning |
| Records.FindSubmission | app/assign.jsx:22 | `find` by id: `None` exactly when no record has the id; otherwise the first record with it |
| AppContext.LoadSubmissions | contexts/AppContext.jsx:19-26 | a present, non-empty, parseable stored string gives its parse; anything else (missing, empty, read error, parse error) gives the seed submissions |
| AppContext.LoadSession | contexts/AppContext.jsx:31-39 | a read error gives `(null, '')`; otherwise the stored role, and the stored user id or `''` when it is missing |
| AppContext.SessionRestored | contexts/AppContext.jsx:50-53 | the pair `selectRole` writes loads back as the same session |
| AppContext.ClearedSessionLoadsSignedOut | contexts/AppContext.jsx:90-92 | after both keys are removed, the next load is the signed-out session `(null, '')` |
| AppContext.UpdateAll | contexts/AppContext.jsx:77-79 | same length and order; every record with the id, duplicates included, is merged with the patch; every other record is unchanged |
| AppContext.UpdateAllMissingId | contexts/AppContext.jsx:77-79 | an id no record has leaves the collection equal to the old one |
| AppContext.UpdateAllThen | contexts/AppContext.jsx:76-82 | two updates of one id equal one update with the combined patch, when the first keeps the id |
| AppContext.UpdateAllKeepsIds | contexts/AppContext.jsx:77-79 | a patch without an id keeps every id, so distinct ids stay distinct |
| AppContext.UpdateAllKeepsStatusesKnown | contexts/AppContext.jsx:77-79 | a patch with no status, or a known one, keeps every status known |
| AppContext.UpdateAllKeepsJudgeRefs | contexts/AppContext.jsx:77-79 | a patch naming no judge, or a roster judge, keeps every judge reference resolvable |
| AppContext.Store.constructor | contexts/AppContext.jsx:12-15 | the initial state: no submissions, role `null`, user id `''`, both loads pending |
| AppContext.Store.CompleteSubmissionsLoad | contexts/AppContext.jsx:57-61 | the loaded collection is installed and the submissions load is no longer pending |
| AppContext.Store.CompleteSessionLoad | contexts/AppContext.jsx:63-68 | the loaded session is installed and the session load is no longer pending |
| AppContext.Store.AddSubmission | contexts/AppContext.jsx:70-74 | the collection becomes `old + [s]`, and storage receives that same collection |
| AppContext.Store.UpdateSubmission | contexts/AppContext.jsx:76-82 | the collection becomes `UpdateAll(old, id, p)`, and storage receives that same collection |
| AppContext.Store.SelectRole | contexts/AppContext.jsx:84-88 | role and user id are set, and the same pair is written to storage |
| AppContext.Store.ClearRole | contexts/AppContext.jsx:90-95 | the session returns to `(null, '')` and both stored keys are removed |
| AppContext.Store.IsLoading | contexts/AppContext.jsx:102 | either initial read still pending; `Store.CompleteSubmissionsLoad` and `Store.CompleteSessionLoad` state that each completed read leaves only the other one pending |
| AppContext.SelectThenClearIsSignedOut | contexts/AppContext.jsx:84-95 | after select then clear, the session is the signed-out `(null, '')` and neither key is stored; a second clear leaves session and storage equal to what the first left |
| Mocks.SeedJudgeIdsDistinct | mocks/data.js:1-5 | the roster ids are pairwise distinct |
| Mocks.SeedSubmissionIdsDistinct | mocks/data.js:7-42 | the seed submission ids are pairwise distinct |
| Mocks.SeedJudgeRefsResolve | mocks/data.js:27 | every seed judge id names a roster judge |
| Mocks.SeedStatusShapes | mocks/data.js:16-40 | pending has no judge, rating or feedback; assigned has a judge and no rating; judged has a judge, feedback and the rating 8.5 |
| Seqs.Filter | app/admin.jsx:20-22 | `filter`: no longer than the input; an element is kept exactly when it is in the input and satisfies the test, as often as it occurs there |
| Seqs.Find | app/admin.jsx:30 | `find`: `None` exactly when no element satisfies the test; otherwise the first element that does |
| AdminDashboard.ListsAreStatusFilters | app/admin.jsx:20-22 | each list holds exactly the records of its status, as often as they occur, as an order-preserving sub-list |
| AdminDashboard.ListsDisjoint | app/admin.jsx:20-22 | no record is in two of the lists |
| AdminDashboard.CountsAddUp | app/admin.jsx:97 | when every status is known, the three counts sum to the total |
| AdminDashboard.AddedJoinsItsList | app/admin.jsx:20-22 | an appended record joins the end of its own status list and no other |
| AdminDashboard.AssignedJudge | app/admin.jsx:30 | the first roster judge with the submission's judge id; `None` exactly when there is none, or the id is absent |
| AdminDashboard.AssignedJudgeIsTheOne | app/admin.jsx:30 | with distinct roster ids, the judge found is the one with that id |
| AdminDashboard.CardFor | app/admin.jsx:29-62 | the card opens assignment for its id, shows "Tap to assign" exactly when no roster judge matches, else a matching judge's name, and shows the rating exactly when it is truthy |
| AdminDashboard.RenderSection | app/admin.jsx:69-70 | no section exactly for an empty list; otherwise the title, the count and one card per record |
| AdminDashboard.RenderShowsNonEmptySections | app/admin.jsx:146-148 | the sections shown, in order, are exactly those whose lists are non-empty |
| AdminDashboard.EmptyStateIffNoSubmissions | app/admin.jsx:150 | the empty state shows exactly when there are no submissions, and then no section shows |
| AdminDashboard.Render | app/admin.jsx:91-150 | the header total is the collection's size and the three stat counts are the lengths of the three status lists; the sections are those `renderSection` gives for the three lists in order, at most three, each non-empty with one card per record it counts; the empty state exactly for no submissions |
| AdminDashboard.UnknownStatusShowsNothing | app/admin.jsx:146-150 | a non-empty collection whose every status is unknown shows no section and no empty state |
| JudgePanel.MyAssignmentsAreMine | app/judge.jsx:19 | `myAssignments` holds exactly the records whose judge id is the user's, as an order-preserving sub-list |
| JudgePanel.ReviewListsAreExact | app/judge.jsx:20-21 | to-review holds exactly the user's `assigned` records, completed exactly the user's `judged` ones |
| JudgePanel.ReviewListsFit | app/judge.jsx:20-21 | the two review lists are disjoint and together no longer than `myAssignments` |
| JudgePanel.LabelFor | app/judge.jsx:50-62 | "Reviewed" with the rating exactly when the rating is truthy, "Tap to review" otherwise |
| JudgePanel.CardFor | app/judge.jsx:28-42 | the card opens the rate screen for its id, uses the judged colouring exactly for status `judged`, and carries its label |
| JudgePanel.EmptyStateIffNoAssignments | app/judge.jsx:106 | the empty state shows exactly when no record is assigned to the user; otherwise one card per assignment, in order |
| JudgePanel.Render | app/judge.jsx:67-124 | the cards are `CardFor` of each assignment, in order, each opening the rate screen for its id; the assignment, to-review and completed counts are the lengths of the three lists, the last two together at most the first; the empty state exactly when there are no cards |
| AssignJudge.Assign | app/assign.jsx:32-41 | not found exactly when no record has the id; then the selection alert exactly for an empty selection, otherwise assigned; same length, and nothing changes unless assigned |
| AssignJudge.UnknownSubmissionAssignsNothing | app/assign.jsx:22-30 | an unknown submission id renders only the error view and changes nothing |
| AssignJudge.EmptySelectionRejected | app/assign.jsx:33-36 | an empty selection raises "Please select a judge" and changes nothing |
| AssignJudge.AssignEffect | app/assign.jsx:38-41 | a selection sets the judge and status `assigned` on every record with the id, whatever the old status, keeping rating and feedback; other records are unchanged |
| AssignJudge.ReassigningJudgedSubmission | app/assign.jsx:38-41 | status is not forward-only: the judged seed record, assigned again, is back to `assigned` with its rating kept |
| AssignJudge.AssignKeepsWellFormed | app/assign.jsx:32-41 | assigning a roster judge keeps judge references resolvable, statuses known and ids distinct |
| AssignJudge.JudgeRows | app/assign.jsx:71-73 | one row per roster judge, in order; selected exactly when its id is the selection, current exactly when it is the submission's judge |
| AssignJudge.AtMostOneMarked | app/assign.jsx:72-73 | with distinct roster ids, at most one row is selected and at most one is current; none is current without a judge |
| AssignJudge.AssignScreen.constructor | app/assign.jsx:20 | the selection starts empty |
| AssignJudge.AssignScreen.TapJudge | app/assign.jsx:79 | a tap selects that roster judge, so the selection stays empty or a roster id |
| AssignJudge.AssignScreen.HandleAssign | app/assign.jsx:32-46 | the outcome and new collection are those of `Assign`; storage is written only on success; with the button enabled the selection alert never shows, with it disabled nothing is assigned; resolvable judge references stay resolvable |
| RateSubmission.StarsRange | app/rate.jsx:221-224 | the stars are exactly the integers 1 to 10 |
| RateSubmission.CheckReview | app/rate.jsx:112-120 | a zero rating is rejected first; then feedback that is all white space; otherwise the review goes ahead |
| RateSubmission.Rate | app/rate.jsx:111-128 | not found exactly when no record has the id; then the rating alert exactly for rating 0, the feedback alert exactly for a rating with blank feedback, otherwise submitted; same length, and nothing changes unless submitted |
| RateSubmission.UnknownSubmissionRatesNothing | app/rate.jsx:65-71 | an unknown submission id renders only the error view and changes nothing |
| RateSubmission.InvalidReviewRejected | app/rate.jsx:112-120 | rating 0 gives "Please provide a rating" before the feedback is checked; blank feedback gives "Please provide feedback"; neither updates |
| RateSubmission.RateEffect | app/rate.jsx:124-128 | accepted input sets the rating, the trimmed feedback and status `judged` on every record with the id, keeping its judge; other records are unchanged |
| RateSubmission.AcceptedReviewIsJudged | app/rate.jsx:124-128 | an accepted star rating lies in 1..10; a rated record with a judge has the judged shape and reads "Reviewed" on the judge panel |
| RateSubmission.FormatTime | app/rate.jsx:141-146 | minutes, a colon, and the seconds as two characters; the minutes have no leading zero |
| RateSubmission.PaddedSeconds | app/rate.jsx:145 | seconds below 60, padded, are exactly two digits that read back as the seconds |
| RateSubmission.FormatTimeRoundTrip | app/rate.jsx:141-146 | the clock reads back as `ms div 1000` total seconds: minutes times 60 plus seconds, with seconds below 60 |
| RateSubmission.RateScreen.constructor | app/rate.jsx:23-29 | rating 0, empty feedback, not submitting |
| RateSubmission.RateScreen.TapStar | app/rate.jsx:224 | a star sets the rating to its number, so the rating stays 0 or in 1..10 |
| RateSubmission.RateScreen.ChangeFeedback | app/rate.jsx:246 | the feedback becomes the typed text |
| RateSubmission.RateScreen.HandleSubmit | app/rate.jsx:111-128 | the outcome and new collection are those of `Rate`; only success sets the submitting state, with the rating in 1..10, and writes storage; a failed call leaves the submitting state and storage as they were; with the button enabled the rating alert never shows |
| RateSubmission.RateScreen.SubmitTimerFired | app/rate.jsx:130-131 | the timer ends the submitting state |
| RoleSelection.UserIdFor | app/index.jsx:42-46 | admin gets `admin1`; a contestant's id starts with `c`, any other role's with `j` |
| RoleSelection.TimestampReadsBack | app/index.jsx:42-46 | outside the admin, the id after its first letter is the decimal timestamp, with no leading zero |
| RoleSelection.UserIdInjective | app/index.jsx:42-46 | outside the admin, two timestamps give two different ids |
| RoleSelection.RolesGetDistinctIds | app/index.jsx:42-46 | contestant, admin and judge ids never coincide |
| RoleSelection.JudgeSessionMatchesNoRosterJudge | app/index.jsx:42-46 | a judge id from a timestamp of 10 or more is no roster id, so with resolvable judge references the panel is empty |
| RoleSelection.Redirect | app/index.jsx:29-39 | a redirect exactly when not loading and the role is contestant, admin or judge, to `/` followed by the role |
| RoleSelection.NoRedirectWhileLoading | app/index.jsx:30 | while loading, nothing redirects |
| RoleSelection.HandleRoleSelect | app/index.jsx:41-49 | `selectRole` receives the chosen role unchanged and its derived id; once loaded, a known role redirects to its route |
| Text.ParseDigitsOfDigits | app/rate.jsx:145 | the decimal numeral of `n` reads back as `n` |
| Text.TrimEmptyIff | app/rate.jsx:117 | `trim` gives `''` exactly when the text is all white space |
| Text.TrimIsCore | app/rate.jsx:126 | `trim` keeps a contiguous piece of the text, with only white space before and after it, that neither starts nor ends with white space |
| Text.TrimIdempotent | app/rate.jsx:126 | trimming a trimmed text changes nothing |

## Left out

- AsyncStorage and react-query: the queries, mutations and caching are I/O. Storage is a ghost field holding what each key last received.
- Async ordering: the two initial loads may complete in either order. The writes of `addSubmission`, `updateSubmission` and `selectRole` go through mutations that are not awaited, so they may land late or interleave. `clearRole` does await its two removes. These are concurrency effects. The model applies each step atomically, one after another.
- AppContext.Store.ClearRole: every `setItem` and `removeItem` is taken to succeed. In the code a rejected remove aborts `clearRole` before the session is reset, so the role stays signed in and `handleLogout` (app/admin.jsx:24-27, app/judge.jsx:23-26) does not navigate. A rejected write in the other three operations leaves storage holding the old value while memory holds the new one. Neither failure path is modelled.
- Stale closures: the React state seen by a handler is taken to be the current store state.
- JSON: `JSON.stringify` and `JSON.parse` are opaque. A `Date` does not survive the round trip, so no round trip through storage is claimed.
- AppContext.LoadSubmissions: a parse that returns something other than an array (such as `null`) is not modelled. The parse parameter either fails or yields a list of submissions.
- Records.Patch: a patch cannot set a key to `undefined`; no caller does.
- Records.Submission: `submittedAt` is kept as milliseconds since the epoch.
- Audio playback on the rate screen: loading and playing, the 100 ms polling, the floating-point progress ratio and `Animated` are device I/O and floating point.
- `toFixed` display of ratings: this is floating-point formatting.
- `Date.now()` is non-deterministic and is a parameter of `RoleSelection.HandleRoleSelect`.
- Presentation: styles, gradients, `Alert.alert`, router calls and the 500 ms `setTimeout`. Alerts and navigation are returned values.
- The app layout with its sign-in provider wiring, the user login form and the not-found screen: they have no logic over the store.
- The contestant screens (`app/(app)/(pages)/contestant.jsx` and `app/(app)/(pages)/submit.jsx`) are not part of this model. Adding a submission is modelled at the store (`AppContext.Store.AddSubmission`).
- AdminDashboard.CardFor: it states that the badge names some roster judge with the submission's id. That it is the first such judge is stated by `AdminDashboard.AssignedJudge`.
