# leetlabs core in Dafny

leetlabs is a coding-practice site. It has an Express backend that stores problems and checks their reference solutions against the Judge0 code-execution service, and a React front end with a problem table, playlists, a profile page and an interview workspace.

This project models the logic behind those pieces and proves what it promises:

- **Reference-solution validation** before a problem is created or updated. Languages go in entry order, one submission per test case. The first unsupported language or the first failing test case rejects the request, and the problem is saved only when everything passed.
- **Backend error shaping**: the `ApiError` record, its JSON form, and the error middleware that turns any thrown value into a status and a body.
- **Client validators and aggregations**:
  - the problem-form schema and its two sample problems;
  - the problem table's filter, option lists, solved ids and header state;
  - playlist validation, progress and statistics;
  - the profile statistics, achievements, time buckets and skill bars;
  - the dashboard counts;
  - the interview test-case mappings;
  - the header's route titles.
- **State machines**: the timer widget, the create-playlist dialog, the playlists page's own state, and the playlist store.

Network calls, the database and the clock enter as parameters:

- The judge is a pair of functions: submit a batch and get tokens, poll tokens and get status ids.
- Store actions receive the outcome their request would have had.
- Elapsed time is an integer number of milliseconds.

Each source file becomes one module:

| module | file |
|---|---|
| `ProblemController` | `problem_controller.dfy` |
| `ApiErrors` | `api_error.dfy` |
| `ErrorMiddleware` | `error_middleware.dfy` |
| `ProblemForm` | `problem_form.dfy` |
| `DataTable` | `data_table.dfy` |
| `PlaylistPage` | `playlist_page.dfy` |
| `PlaylistForm` (validation shared by the playlists page and the dialog) | `playlist_form.dfy` |
| `Analytics` | `analytics.dfy` |
| `CreatePlaylistDialog` | `create_playlist_dialog.dfy` |
| `PlaylistStore` | `playlist_store.dfy` |
| `Profile` | `profile.dfy` |
| `Dashboard` | `dashboard.dfy` |
| `Interview` | `interview.dfy` |
| `TimerPanel` | `timer.dfy` |
| `SiteHeader` | `site_header.dfy` |

Shared helpers live in their own modules:

- `Wrappers`: `Option`.
- `JsText`: JavaScript's ASCII case mapping and `trim`, `includes`, decimal strings and string order.
- `Numbers`: `Math.round` as round-half-up of an exact ratio (the predicate `RoundsTo`), and sums.
- `Seqs`: subsequences and set-like deduplication.

The code is imperative where the source is:

- the two validation loops in the controller;
- `solvedProblemIds` and `rowSelection`;
- `validateForm`;
- the dialog, page, store and timer handlers;
- the in-place sort of submissions and the title map.

Each of these methods states its result and the new value of every field it may change. Those values are given in terms of the functions it calls:

- the validation rules (`PlaylistForm.RecordedErrors`);
- the refresh outcome (`PlaylistStore.Shows` and `ListError`);
- the validation function (`ProblemController.ValidateAll`).

Some definitions carry no contract of their own. Other members' contracts are stated with them:

- `DataTable.Matches`, the filter's keep predicate, is used in the contract of `FilterData`;
- `ProblemForm.SchemaRules`, the schema rule by rule, is used in the contract of `Issues`;
- `Profile.Display`, one recent row, is used in the contract of `GetRecentSubmissions`.

## Model

| member | source | states |
|---|---|---|
| ProblemController.LanguageId | backend/src/controllers/problem.controller.js:29-32 | a language id is found exactly when the map has a non-zero id for the language, and it is that id |
| ProblemController.BuildSubmissions | backend/src/controllers/problem.controller.js:34-39 | one submission per test case, in order, each with the solution's code and language id, `stdin` = input and `expected_output` = output |
| ProblemController.BatchRoundTrip | backend/src/controllers/problem.controller.js:34-39 | the test cases can be read back from the batch unchanged, and every submission has the given code and language id |
| ProblemController.Tokens | backend/src/controllers/problem.controller.js:41-43 | the tokens passed to polling are the submit replies' tokens, in the same order |
| ProblemController.FirstFailure | backend/src/controllers/problem.controller.js:45-55 | there is no failure iff every result is Accepted (3); otherwise it is the lowest index whose status is not 3 |
| ProblemController.ScanResults | backend/src/controllers/problem.controller.js:45-55 | the indexed loop over the results stops at exactly the index FirstFailure names |
| ProblemController.CheckLanguage | backend/src/controllers/problem.controller.js:29-55 | every rejection of one language entry is a 400 |
| ProblemController.CheckLanguagePassIff | backend/src/controllers/problem.controller.js:29-55 | one language passes iff it has a judge id and every polled result for its batch is Accepted |
| ProblemController.CheckEntry | backend/src/controllers/problem.controller.js:29-55 | one pass of the language loop gives that language's outcome and the batch it submitted |
| ProblemController.ValidateAll | backend/src/controllers/problem.controller.js:28-56 | every rejection of the loop is a 400 |
| ProblemController.ValidateAllFailsAtEntry | backend/src/controllers/problem.controller.js:28-56 | a rejection of the loop is the rejection of one entry, and every entry before it passed |
| ProblemController.ValidateAllPassIff | backend/src/controllers/problem.controller.js:28-58 | validation passes iff every language entry passes |
| ProblemController.FirstFailingEntryDecides | backend/src/controllers/problem.controller.js:28-56 | the first failing language decides the outcome, and no batch is submitted after it |
| ProblemController.UnsupportedLanguageRejects | backend/src/controllers/problem.controller.js:29-32 | a language without an id, after passing ones, rejects with 400 "`<language>` Language is not supported" |
| ProblemController.FailingTestCaseRejects | backend/src/controllers/problem.controller.js:45-55 | the lowest failing result i rejects with 400 "Testcase i+1 failed for language `<language>`" |
| ProblemController.SubmittedBatchesBound | backend/src/controllers/problem.controller.js:28-56 | at most one batch is submitted per language entry |
| ProblemController.ValidateReferenceSolutions | backend/src/controllers/problem.controller.js:28-56 | the loop's outcome and its sequence of submitted batches are exactly those of the validation function |
| ProblemController.CreateProblem | backend/src/controllers/problem.controller.js:24-75 | a non-ADMIN gets 403 with nothing submitted; an admin's problem is saved (201) iff validation passes, otherwise the validation error is returned |
| ProblemController.UpdateProblem | backend/src/controllers/problem.controller.js:110-177 | an unknown id gets 404 with nothing submitted; otherwise the same validation decides whether the update is saved |
| ApiErrors.ApiError.constructor | backend/src/utils/api-error.js:2-19 | status, message and errors are stored as passed, with defaults "Something went wrong" and []; the stack is the argument if given, else captured |
| ApiErrors.ApiError.ToJson | backend/src/utils/api-error.js:23-30 | the body is exactly status, message, errors and success, and success is false |
| ApiErrors.DefaultsExample | backend/src/utils/api-error.js:4-5 | an error built from a status alone serialises with the default message, no errors and success false |
| ErrorMiddleware.ErrorHandler | backend/src/middlewares/error.middleware.js:3-18 | an ApiError is answered with its own status and toJSON body; any other error gets 500, "Internal Server Error" and [message]; success is always false and the body's status equals the HTTP status |
| ProblemForm.TestCaseIssuesEmpty | client/src/components/CreateProblemForm.jsx:41-48 | the per-test-case checks report nothing iff every test case has a non-empty input and output |
| ProblemForm.FieldIssuesEmpty | client/src/components/CreateProblemForm.jsx:34-40 | the scalar fields pass iff title ≥ 3, description ≥ 10, difficulty is EASY/MEDIUM/HARD, there is at least one tag and constraints are non-empty |
| ProblemForm.TestCasesIssuesEmpty | client/src/components/CreateProblemForm.jsx:41-48 | the test-case list passes iff it is present, non-empty and every case has input and output |
| ProblemForm.ExamplesIssuesEmpty | client/src/components/CreateProblemForm.jsx:49-67 | examples pass iff JAVASCRIPT, PYTHON and JAVA each have an example with non-empty input and output |
| ProblemForm.CodeMapIssuesEmpty | client/src/components/CreateProblemForm.jsx:68-75 | a code map passes iff it has a non-empty entry for each of the three languages |
| ProblemForm.Issues | client/src/components/CreateProblemForm.jsx:33-76 | the schema reports no issue iff all of its rules hold (title, description, difficulty, tags, constraints, test cases, the three examples, snippets and solutions) |
| ProblemForm.WhitespaceAndEmptyTagAllowed | client/src/components/CreateProblemForm.jsx:37-48 | a test case with input " " passes the test-case rule, and the tag list [""] meets the at-least-one-tag rule |
| ProblemForm.AcceptedByParts | client/src/components/CreateProblemForm.jsx:33-76 | every part reporting nothing means the whole form is accepted |
| ProblemForm.DpPartsPass | client/src/components/CreateProblemForm.jsx:78-322 | the DP sample's test cases, examples, snippets and solutions pass their rules |
| ProblemForm.StringPartsPass | client/src/components/CreateProblemForm.jsx:325-523 | the string sample's test cases, examples, snippets and solutions pass their rules |
| ProblemForm.SampleDpAccepted | client/src/components/CreateProblemForm.jsx:78-322 | the DP sample satisfies the schema |
| ProblemForm.SampleStringAccepted | client/src/components/CreateProblemForm.jsx:325-523 | the string sample satisfies the schema |
| ProblemForm.LoadSampleData | client/src/components/CreateProblemForm.jsx:600-605 | the DP sample is chosen iff the type is "DP"; any other type gives the string sample |
| ProblemForm.LoadedSampleAccepted | client/src/components/CreateProblemForm.jsx:600-605 | whichever sample is loaded satisfies the schema |
| ProblemForm.DefaultExampleIssues | client/src/components/CreateProblemForm.jsx:544-548 | the default examples fail exactly on the three empty inputs and the three empty outputs |
| ProblemForm.DefaultCodePasses | client/src/components/CreateProblemForm.jsx:549-558 | the default snippets and reference solutions pass the code rules |
| ProblemForm.DefaultsRejected | client/src/components/CreateProblemForm.jsx:540-559 | the default values are rejected, with missing title, description and constraints, an empty first test case and the empty example fields as the complete list of issues |
| DataTable.FilterData | client/src/components/data-table.jsx:414-433 | the result is an order-preserving subsequence of the data, and an item is kept iff it matches search, company, difficulty and tag |
| DataTable.FilterDataCounts | client/src/components/data-table.jsx:414-433 | a matching item occurs in the result exactly as often as in the data, and any other item not at all |
| DataTable.ClearedIffInactive | client/src/components/data-table.jsx:435-446 | no filter is active iff the filters are the cleared ones; after clearing, none is active |
| DataTable.ClearedKeepsAll | client/src/components/data-table.jsx:414-440 | with the cleared filters every item is kept, in order |
| DataTable.Insert | client/src/components/data-table.jsx:400-410 | inserting into a strictly sorted list keeps it strictly sorted and adds exactly the new value |
| DataTable.SortedDistinct | client/src/components/data-table.jsx:400-410 | the set-then-sort gives a strictly sorted list with the same members |
| DataTable.StrictlySortedNoDuplicates | client/src/components/data-table.jsx:400-410 | a strictly sorted list has no duplicates |
| DataTable.CompanyValues | client/src/components/data-table.jsx:400-404 | the company values are exactly the non-empty companies of the items |
| DataTable.TagValues | client/src/components/data-table.jsx:407-409 | the tag values are exactly the tags of all items |
| DataTable.Companies | client/src/components/data-table.jsx:400-405 | companies are sorted, duplicate-free and exactly the truthy companies |
| DataTable.AllTags | client/src/components/data-table.jsx:407-410 | tags are sorted, duplicate-free and exactly the union of all items' tags |
| DataTable.SolvedRowIds | client/src/components/data-table.jsx:508-513 | the ids are exactly those of rows with a non-empty `ProblemSolved` |
| DataTable.AddSolvedRows | client/src/components/data-table.jsx:508-513 | the row loop yields the solved row ids, each once, in first-seen order |
| DataTable.SolvedProblemIds | client/src/components/data-table.jsx:505-519 | no data gives no ids; otherwise the set holds the solved row ids and then the prop's ids, each once |
| DataTable.SolvedProblemIdsMembers | client/src/components/data-table.jsx:505-519 | the solved id set is duplicate-free and holds exactly the solved rows' ids and the prop's ids |
| DataTable.RowSelection | client/src/components/data-table.jsx:548-556 | the selection marks true exactly the filtered rows whose id is solved |
| DataTable.SolvedCount | client/src/components/data-table.jsx:583-586 | the count is exactly the number of filtered rows whose id is solved, so at most the rows; it is 0 iff none is solved and all iff every one is |
| DataTable.HeaderStates | client/src/components/data-table.jsx:307-316 | "all solved" iff the page is non-empty and every row is solved; "some solved" iff some but not all are; never both |
| DataTable.DifficultyStyle | client/src/components/data-table.jsx:76-88 | easy, medium and hard (any case) get their styles; a missing or other difficulty gets the default style |
| DataTable.ShownTags | client/src/components/data-table.jsx:287-295 | at most two tags are shown: none for a missing list, all of them when there are at most two, and exactly the first two otherwise |
| PlaylistPage.IsSolvedRules | client/src/pages/Playlist.jsx:68-82 | a missing problem is unsolved, a non-empty userId list makes it solved, and otherwise it is solved iff its status equals "solved" ignoring case |
| PlaylistPage.SolvedEntries | client/src/pages/Playlist.jsx:84-91 | the count is exactly the number of entries (unwrapping `p.problem`) that count as solved, so at most the list; 0 iff none is solved and all iff all are |
| PlaylistPage.Progress | client/src/pages/Playlist.jsx:84-91 | 0 for a missing or empty list; otherwise the round-half-up of 100·solved/len; in 0..100; 100 when all are solved and 0 when none is |
| PlaylistPage.ProblemCounts | client/src/pages/Playlist.jsx:355 | one count per playlist: its list's length, 0 for a missing list |
| PlaylistPage.TotalProblems | client/src/pages/Playlist.jsx:355 | the sum of the problem counts: 0 without playlists, and at least every playlist's own count |
| PlaylistPage.TotalProblemsAppend | client/src/pages/Playlist.jsx:355 | adding a playlist adds its problem count to the total |
| PlaylistPage.ProgressValues | client/src/pages/Playlist.jsx:358 | one progress value per playlist, each in 0..100 |
| PlaylistPage.AvgProgress | client/src/pages/Playlist.jsx:356-359 | 0 without playlists; otherwise the sum of the progress values divided by their number, rounded half up; in 0..100, and 100 when every playlist is complete |
| PlaylistPage.DifficultyColor | client/src/pages/Playlist.jsx:49-57 | green, yellow and red iff the uppercased difficulty is EASY, MEDIUM or HARD; gray iff it is missing or anything else |
| PlaylistPage.ExtraTagCount | client/src/pages/Playlist.jsx:156-165 | the "+N" badge appears iff there are more than two tags, and N is the number of tags beyond two |
| PlaylistPage.TagBadgesCoverAll | client/src/pages/Playlist.jsx:156-165 | the two shown tags and N together account for all tags |
| PlaylistPage.Toggled | client/src/pages/Playlist.jsx:274 | the expanded id becomes null iff it was this id, otherwise it becomes this id |
| PlaylistPage.ToggleTwice | client/src/pages/Playlist.jsx:274 | toggling the same id twice restores the state iff nothing or that playlist was open; from another open playlist it ends closed |
| PlaylistPage.Page.constructor | client/src/pages/Playlist.jsx:245-250 | nothing expanded, an empty form, no errors, not creating and the dialog closed |
| PlaylistPage.Page.ToggleExpand | client/src/pages/Playlist.jsx:274 | sets the expanded id by the toggle rule and changes nothing else |
| PlaylistPage.Page.ValidateForm | client/src/pages/Playlist.jsx:277-289 | valid iff the trimmed name has ≥ 3 characters and the description ≤ 500, iff no errors are recorded; the recorded errors are exactly those of the shared rules (required, too short, too long, none) |
| PlaylistPage.Page.BeginCreate | client/src/pages/Playlist.jsx:291-299 | an invalid form sends nothing and records its errors by the shared rules; a valid one records none, sets creating and sends the trimmed name and description |
| PlaylistPage.Page.FinishCreate | client/src/pages/Playlist.jsx:301-308 | success empties the form, clears the errors and closes the dialog; creating ends either way |
| PlaylistPage.Page.HandleDialogClose | client/src/pages/Playlist.jsx:345-351 | a close while not creating closes the dialog and clears the form; anything else changes nothing |
| PlaylistPage.Page.HandleDeletePlaylist | client/src/pages/Playlist.jsx:311-314 | the playlist being deleted is collapsed if it was open; nothing else changes |
| PlaylistPage.RemoveProblemIds | client/src/pages/Playlist.jsx:323-326 | a single problem is removed by sending the one-element list holding it |
| PlaylistForm.CreateRequestTrimmed | client/src/pages/Playlist.jsx:296-299 | the request sent has both fields trimmed; trimming it again changes nothing |
| PlaylistForm.RecordedErrorsUnique | client/src/pages/Playlist.jsx:277-289 | the error rules leave no choice: an input has exactly one set of recorded errors |
| PlaylistForm.ValidateForm | client/src/pages/Playlist.jsx:277-289 | name: "required" iff blank, "at least 3" iff non-blank but shorter than 3 once trimmed, none iff ≥ 3; description: an error iff over 500; valid iff there are no errors iff both rules hold |
| PlaylistForm.BlankNameMissing | client/src/pages/Playlist.jsx:279-280 | for every input whose name is white space only, the name trims to empty and the recorded name error is "Name is required" |
| PlaylistForm.PaddedNameJudgedBare | client/src/pages/Playlist.jsx:281-282 | white space around a name does not count toward the 3-character minimum |
| Analytics.SolvedCount | client/src/pages/Analytics.jsx:85-89 | the count is exactly the number of entries whose status is "solved" (no case folding): 0 iff none, all iff all |
| Analytics.Progress | client/src/pages/Analytics.jsx:85-89 | 0 for a missing or empty list; otherwise the round-half-up of 100·solved/len; in 0..100 |
| Analytics.ProgressIsCaseSensitive | client/src/pages/Analytics.jsx:87 | "Solved" does not count, "solved" does, and one of two gives 50 |
| Analytics.ProblemCounts | client/src/pages/Analytics.jsx:184 | one count per playlist: its list's length, 0 for a missing list |
| Analytics.TotalProblems | client/src/pages/Analytics.jsx:184 | the sum of the problem counts: 0 without playlists, and at least every playlist's own count |
| Analytics.TotalProblemsAppend | client/src/pages/Analytics.jsx:184 | adding a playlist adds its problem count to the total |
| Analytics.ProgressValues | client/src/pages/Analytics.jsx:187 | one progress value per playlist, each in 0..100 |
| Analytics.AvgProgress | client/src/pages/Analytics.jsx:185-188 | 0 without playlists; otherwise the sum of the progress values divided by their number, rounded half up; in 0..100, and 100 when every playlist is complete |
| Analytics.DifficultyColor | client/src/pages/Analytics.jsx:46-57 | EASY/MEDIUM/HARD in any case pick green/yellow/red; anything else is gray |
| Analytics.IconFor | client/src/pages/Analytics.jsx:59-70 | "solved" gives the check icon, "attempted" the alert icon, anything else the x icon |
| Analytics.CreateCall | client/src/pages/Analytics.jsx:143-147 | nothing is sent iff the trimmed name is empty; otherwise the untrimmed input is sent |
| Analytics.AfterCreate | client/src/pages/Analytics.jsx:147-152 | a sent and successful create closes the dialog and empties the form; otherwise nothing changes |
| Analytics.ToggleExpand | client/src/pages/Analytics.jsx:134-141 | the expanded playlist collapses; any other expands and its details are fetched |
| Analytics.CreateSendsUntrimmed | client/src/pages/Analytics.jsx:147 | a padded name is sent as typed |
| CreatePlaylistDialog.ClearedError | client/src/components/CreatePlaylistDialog.jsx:90-92 | a truthy error message is removed; an absent or empty one stays |
| CreatePlaylistDialog.Dialog.constructor | client/src/components/CreatePlaylistDialog.jsx:27-30 | closed, an empty form, not creating and no errors |
| CreatePlaylistDialog.Dialog.DialogIsOpen | client/src/components/CreatePlaylistDialog.jsx:33 | the isOpen prop whenever it is defined, else the internal state |
| CreatePlaylistDialog.Dialog.SetDialogOpen | client/src/components/CreatePlaylistDialog.jsx:34 | forwards to onOpenChange when given, else stores the state internally |
| CreatePlaylistDialog.Dialog.ValidateForm | client/src/components/CreatePlaylistDialog.jsx:36-48 | the same rules as the page: valid iff the trimmed name has ≥ 3 characters and the description ≤ 500, iff the errors are empty; the recorded errors are exactly those of the shared rules |
| CreatePlaylistDialog.Dialog.BeginCreate | client/src/components/CreatePlaylistDialog.jsx:50-58 | invalid input records its errors by the shared rules and sends nothing; valid input records none, sets creating and sends the trimmed fields |
| CreatePlaylistDialog.Dialog.FinishCreate | client/src/components/CreatePlaylistDialog.jsx:60-75 | success resets the form and errors, closes the dialog and notifies the parent when asked; creating ends either way |
| CreatePlaylistDialog.Dialog.HandleDialogClose | client/src/components/CreatePlaylistDialog.jsx:78-85 | closing while not creating resets the form and errors; the open state is always forwarded |
| CreatePlaylistDialog.Dialog.HandleInputChange | client/src/components/CreatePlaylistDialog.jsx:87-93 | only the named field changes, and only that field's error is cleared |
| PlaylistStore.ErrorMessage | client/src/store/usePlaylistStore.js:12-20 | the message is the response's message, then the response's error, then the error's message, then the default |
| PlaylistStore.StoredList | client/src/store/usePlaylistStore.js:48-54 | an array response is stored as is; anything else stores [] |
| PlaylistStore.WithoutId | client/src/store/usePlaylistStore.js:125-129 | exactly the playlists with other ids remain, in order; the list is unchanged when no playlist has the id |
| PlaylistStore.WithoutIdCounts | client/src/store/usePlaylistStore.js:125-129 | a playlist with another id keeps all its copies, one with the removed id keeps none |
| PlaylistStore.ProblemIdList | client/src/store/usePlaylistStore.js:100 | a single id becomes a one-element list; a list passes unchanged |
| PlaylistStore.Store.constructor | client/src/store/usePlaylistStore.js:5-9 | no playlists, no current playlist, not loading and no error |
| PlaylistStore.Store.HandleError | client/src/store/usePlaylistStore.js:12-20 | stops loading and records the message by that precedence; the lists stay |
| PlaylistStore.Store.CreatePlaylist | client/src/store/usePlaylistStore.js:22-41 | success appends the new playlist, clears the error and ends loading; failure records the error and rethrows it |
| PlaylistStore.Store.GetAllPlaylists | client/src/store/usePlaylistStore.js:43-58 | success stores the array (or []); failure records the error and does not rethrow |
| PlaylistStore.Store.GetPlaylistDetails | client/src/store/usePlaylistStore.js:60-78 | success makes the fetched playlist current; failure records the error and rethrows |
| PlaylistStore.Store.RefreshPlaylistData | client/src/store/usePlaylistStore.js:139-145 | details are refetched iff the current playlist has that id; the list is refetched unless that refetch threw; the new current playlist, list and error follow from the two outcomes |
| PlaylistStore.Store.AddProblemToPlaylist | client/src/store/usePlaylistStore.js:80-94 | a failed add is recorded with the add message and rethrown; after a successful add, an error is thrown iff the details refetch ran and failed (recorded with the add message, lists kept); otherwise the current playlist, the list and the error are those of the refresh |
| PlaylistStore.Store.RemoveProblemFromPlaylist | client/src/store/usePlaylistStore.js:96-117 | the ids are sent as a list; a failed delete is recorded with the remove message and rethrown; after a successful delete, an error is thrown iff the details refetch ran and failed; otherwise the current playlist, the list and the error are those of the refresh |
| PlaylistStore.Store.DeletePlaylist | client/src/store/usePlaylistStore.js:119-136 | success drops exactly that id's playlists and clears the current playlist iff it had that id; failure is rethrown as a new error |
| PlaylistStore.CreateThenDelete | client/src/store/usePlaylistStore.js:29-33 | deleting a newly created playlist with a fresh id restores the list |
| PlaylistStore.WithoutIdAppend | client/src/store/usePlaylistStore.js:125-129 | filtering a list with one playlist appended filters the list and keeps or drops the new one by its id |
| Profile.Statuses | client/src/pages/Profile.jsx:64 | the statuses of the submissions, in order |
| Profile.AcceptedProblemIds | client/src/pages/Profile.jsx:64-69 | the problem id of each Accepted submission, duplicates kept: as many as there are Accepted statuses, and exactly the ids of Accepted submissions |
| Profile.DistinctAccepted | client/src/pages/Profile.jsx:69-70 | the Set of accepted problem ids has one entry per solved problem, no more than the accepted submissions, and none iff there are none |
| Profile.CalculateUserStats | client/src/pages/Profile.jsx:47-84 | all zero with no submissions; otherwise totalSolved is the number of distinct problems with an Accepted submission, totalSolved ≤ accepted ≤ total, and the acceptance rate is 100·accepted/total rounded half up, in 0..100 |
| Profile.SwapWithPrevious | client/src/pages/Profile.jsx:94 | swaps two neighbours and keeps everything else |
| Profile.SortNewestFirst | client/src/pages/Profile.jsx:94 | the array ends up ordered newest first and is a permutation of what it was |
| Profile.GetRecentSubmissions | client/src/pages/Profile.jsx:87-103 | sorts the array in place newest first and returns the first min(n, 5), none older than any left out |
| Profile.LanguageLabel | client/src/pages/Profile.jsx:101 | the first character kept and the rest lowercased |
| Profile.LanguageLabelIdempotent | client/src/pages/Profile.jsx:101 | applying the label twice changes nothing |
| Profile.TitleMap | client/src/pages/Profile.jsx:35-43 | with problems, the map has exactly their ids with the last title seen for each; without them, it stays |
| Profile.SubmissionTitle | client/src/pages/Profile.jsx:106-109 | the mapped title, or "Unknown Problem" for an unknown or empty one |
| Profile.TimeAgo | client/src/pages/Profile.jsx:112-123 | under an hour, hours up to 24, days under 7 (singular iff 1), else the date |
| Profile.TimeAgoNumbers | client/src/pages/Profile.jsx:112-123 | between one hour and seven days the text starts with the whole count of hours or days |
| Profile.Achievements | client/src/pages/Profile.jsx:128-176 | six achievements, each earned iff its threshold holds |
| Profile.AchievementsNested | client/src/pages/Profile.jsx:128-176 | "Problem Solver" implies "First Solve" and "Persistent Coder" implies "Getting Started" |
| Profile.SkillProgress | client/src/pages/Profile.jsx:180-203 | six skills, all 0 with no submissions; the first five are within 0..100 and Debugging is within 20..100 when there are submissions |
| Dashboard.OrElse | client/src/pages/Dashboard.jsx:34-37 | the value when truthy, else the fallback |
| Dashboard.InitialUserData | client/src/pages/Dashboard.jsx:33-49 | the user's fields or their fallbacks, and the fixed starting numbers |
| Dashboard.CountDifficulty | client/src/pages/Dashboard.jsx:62-69 | exactly the number of occurrences of the difficulty in the list, so at most the list, and 0 iff the difficulty does not occur |
| Dashboard.CountsWithinTotal | client/src/pages/Dashboard.jsx:62-64 | the three counts never exceed the list |
| Dashboard.UpdateUserData | client/src/pages/Dashboard.jsx:60-84 | with a solved list the counts, totals and submissions come from the lists and nothing else changes; without one nothing changes at all |
| Dashboard.ExactDifficultyMatch | client/src/pages/Dashboard.jsx:62-69 | a lowercase "easy" is not counted as EASY |
| Interview.ResetCases | client/src/pages/Interview.jsx:117-126 | one case per test case, expected = output, no result; no list gives none |
| Interview.RunningCases | client/src/pages/Interview.jsx:182-193 | the same, with the status "Running..." |
| Interview.MergeOne | client/src/pages/Interview.jsx:134-143 | input and output kept; expected, stdout, passed and status from the result with their fallbacks |
| Interview.MergeResults | client/src/pages/Interview.jsx:133-145 | as many entries as test cases, entry i taking result i when there is one |
| Interview.AfterSubmission | client/src/pages/Interview.jsx:131-146 | the merge happens only with results and test cases; otherwise the panel stays |
| Interview.EmptyResultFallbacks | client/src/pages/Interview.jsx:134-141 | a result with nothing usable gives the expected output, "No output", false and "Unknown" |
| Interview.RunListsAligned | client/src/pages/Interview.jsx:197-198 | the stdin and expected lists have the test cases' length and zip back to them |
| Interview.DisplayTestCases | client/src/pages/Interview.jsx:216-217 | the panel's cases when non-empty, else the problem's, else none |
| Interview.CodeForLanguage | client/src/pages/Interview.jsx:171-175 | the language's snippet whenever there is one (even an empty one), or "" without one |
| Interview.InitialCode | client/src/pages/Interview.jsx:111-115 | the snippet for the uppercased language, else the last submission's source, else "" |
| Interview.MenuLabel | client/src/pages/Interview.jsx:600-601 | the first character uppercased and the rest lowercased |
| Interview.MenuLabelIdempotent | client/src/pages/Interview.jsx:600-601 | applying the label twice changes nothing |
| Interview.MenuLabelMatchesProfile | client/src/pages/Interview.jsx:600-601 | on keys not starting with a lowercase letter, the menu label equals the profile's label |
| Interview.InitialCodeMatchesLanguageChange | client/src/pages/Interview.jsx:111-115 | for an uppercase language with a snippet, loading and choosing the language show the same code |
| TimerPanel.Pad2 | client/src/components/Timer.jsx:11-15 | padStart(2, "0"): long strings unchanged, short ones zero-filled to two |
| TimerPanel.PaddedValue | client/src/components/Timer.jsx:11-15 | a padded number is all digits and reads back as the number |
| TimerPanel.FormatTime | client/src/components/Timer.jsx:11-15 | the text has at least five characters and its colon third from the end |
| TimerPanel.FormatTimeReadsBack | client/src/components/Timer.jsx:11-15 | the text is MM:SS with digits around the colon, MM·60+SS = seconds and SS < 60; five characters under 100 minutes |
| TimerPanel.Timer.constructor | client/src/components/Timer.jsx:5-7 | collapsed, stopped, time 0 |
| TimerPanel.Timer.Tick | client/src/components/Timer.jsx:18-28 | adds exactly 1 while running, nothing otherwise |
| TimerPanel.Timer.ToggleTimer | client/src/components/Timer.jsx:31-33 | flips running; time and expansion stay |
| TimerPanel.Timer.ResetTimer | client/src/components/Timer.jsx:36-39 | stops and zeroes the time; expansion stays |
| TimerPanel.Timer.ToggleExpanded | client/src/components/Timer.jsx:42-51 | flips expansion, running follows it, and the time stays |
| TimerPanel.ToggleTwiceAndTicks | client/src/components/Timer.jsx:18-39 | toggling twice restores the state; after a reset, time only grows by ticks while running |
| SiteHeader.PageTitle | client/src/components/site-header.jsx:7-20 | a mapped path gives its title; any other path gives "Problems" |
| SiteHeader.TitleIsOneOfTheTable | client/src/components/site-header.jsx:7-20 | the title is always one of the six listed, and an unmapped path gives the same title as "/" |
| SiteHeader.KnownRoutes | client/src/components/site-header.jsx:7-14 | the six listed paths give their titles, "/add-problem" giving "Create Problem" |
| JsText.Trim | client/src/pages/Playlist.jsx:279-281 | trim gives the middle of the string with no white space at either end, and is empty iff the string is all white space |
| JsText.TrimIdempotent | client/src/pages/Playlist.jsx:296-299 | trimming twice is trimming once |
| JsText.TrimPadded | client/src/components/CreatePlaylistDialog.jsx:38-41 | white space around a string without space at its ends is removed exactly |
| JsText.ToLowerIdempotent | client/src/components/data-table.jsx:417-425 | lowercasing twice is lowercasing once |
| JsText.DecimalRoundTrip | client/src/components/Timer.jsx:12-13 | the decimal string of n reads back as n |
| JsText.LeadingZeroValue | client/src/components/Timer.jsx:12-13 | a leading zero does not change a digit string's value |
| JsText.StrLessTransitive | client/src/components/data-table.jsx:400-410 | the string order used by sort is transitive |
| JsText.StrLessTotal | client/src/components/data-table.jsx:400-410 | two different strings are ordered one way or the other |
| JsText.StrLessIrreflexive | client/src/components/data-table.jsx:400-410 | no string is less than itself |
| JsText.StrLessAsymmetric | client/src/components/data-table.jsx:400-410 | the order never holds both ways |
| Numbers.RoundsToUnique | client/src/pages/Playlist.jsx:90 | at most one integer is a ratio rounded half up |
| Numbers.RoundHalfUp | client/src/pages/Playlist.jsx:90 | Math.round of an exact ratio: the result is within one half of it, ties rounding up |
| Numbers.RoundHalfUpBetween | client/src/pages/Playlist.jsx:358-359 | rounding a ratio between two integers stays between them |
| Numbers.RoundHalfUpExact | client/src/pages/Playlist.jsx:358-359 | a whole ratio rounds to itself |
| Numbers.Percent | client/src/pages/Playlist.jsx:90 | 100·count/total rounded half up; in 0..100, 0 for none and 100 for all |
| Numbers.SumBounds | client/src/pages/Playlist.jsx:358-359 | a sum of values in lo..hi lies in lo·n..hi·n |
| Numbers.Lengths | client/src/pages/Playlist.jsx:355 | one length per list, 0 for a missing list |
| Numbers.SumLengths | client/src/pages/Playlist.jsx:355 | the reduce gives the sum of the lengths: 0 for no lists, and at least each list's length |
| Numbers.RoundedMean | client/src/pages/Playlist.jsx:356-359 | 0 for none; otherwise the sum divided by the count, rounded half up; in 0..100, and the common value when all are equal |
| Seqs.DedupMembers | client/src/components/data-table.jsx:505-519 | a Set's contents: the same members, each once |
| Seqs.DedupCount | client/src/pages/Profile.jsx:69-70 | a Set's size is the number of distinct values of its source |
| Seqs.DedupLength | client/src/pages/Profile.jsx:69-70 | a Set is no larger than its source |
| Seqs.DedupEmpty | client/src/pages/Profile.jsx:69-70 | a Set is empty iff its source is |
| Seqs.DedupSnoc | client/src/components/data-table.jsx:509-511 | adding a value to a Set appends it iff it is new |
| Seqs.AddEach | client/src/components/data-table.jsx:516 | adding each value of a list to a Set gives the Set of both lists |

## Left out

- Judge0 itself (`getJudge0LanguageId`, `submitBatch`, `pollBatchResults`) is not part of this model. The judge is a language-id map and two functions; polling delays, retries and timeouts are not modelled.
- ProblemController.CreateProblem and ProblemController.UpdateProblem: the database write is reduced to a `Saved` result carrying the body, the user id and the 201 response (the update answers "Problem created successfully" too, as the code does); Prisma and the `asyncHandler` wrapper are not modelled.
- `playlist.contollers.js`, `submission.controllers.js`, the routes, authentication (bcrypt, jwt, cookies) and the server entry points are thin framework code outside this model.
- Case mapping and `trim` cover ASCII letters and the JavaScript white-space characters; Unicode case mapping is not modelled.
- Strings are sequences of Unicode scalar values, while JavaScript strings are UTF-16 code units. `.length` counts code units, so the minimums of 3 and 10 characters and the 500-character maximum count a character outside the Basic Multilingual Plane once here and twice in the browser: the name "😀😀" is too short here but accepted there. `.sort()` also compares code units, so `JsText.StrLess` orders such characters after U+E000..U+FFFF where the browser orders them before.
- Numbers.RoundHalfUp: `Math.round(x / y * 100)` is computed on the exact ratio, so a floating-point result that lands just below a tie may round differently in the browser.
- Profile.SkillProgress uses exact reals; the `Math.floor(x * 0.4)`-style breakdowns of the profile and the dashboard's percentage bars are floating-point presentation and are left out.
- Profile.SkillProgress: with no submissions the Debugging bar is 0, not within 20..100; the 20..100 bound is stated for a non-empty history, as the code computes it.
- Dates: `new Date`, `toLocaleString` and the clock are parameters (`nowMs`, elapsed milliseconds, a `formatDate` function); locale formatting is not modelled.
- Profile.SortNewestFirst: `Array.prototype.sort` is modelled by an insertion sort, so the order of submissions with equal `createAt` is not claimed to be that of the browser.
- TimerPanel.Timer: `setInterval` is modelled as explicit `Tick` calls; timing and interval cleanup are not modelled.
- React effects, their ordering, deferred search values, toasts, navigation and re-rendering are not modelled; each handler is a method over the component's state.
- ProblemForm: the two sample problems' long texts and code are shortened in the model to their opening words or first lines, because the schema only reads their presence, non-emptiness and the 10-character description minimum.
- ProblemForm: zod's error messages, and the hints, editorial and category fields, are not modelled; only the checked paths are.
- SiteHeader.PageTitle: a path equal to an inherited object key (such as "constructor") would find a prototype member in JavaScript; the model treats the table as a plain map.
- DataTable.DifficultyStyle: the same prototype-key lookup is treated as a plain map.
- PlaylistPage.ToggleTwice: toggling twice restores the state only when nothing or the same playlist was open; from another open playlist it ends closed, and the lemma states exactly that.
- PlaylistForm.ValidateForm: the description message says "less than 500 characters" while 500 characters are accepted; the model follows the code's `> 500` test.
- PlaylistStore.Store.RefreshPlaylistData: when the details refetch throws, the list is not refetched, because the error leaves the function before the second call; the model states that order.
- Interview: `handleRunCode` dereferences `problem.testCases` without a guard; a problem without test cases is outside the run model, and only aligned lists for a given test-case list are stated.
- Interview: the judge's language-id lookup, the run request itself and the editor are not modelled.
- `Submission.jsx`, `SubmissionList.jsx`, `useProblemStore.js` and the presentational components are outside this model.
- The validation loop runs over the polled results and does not compare their number with the test cases.
