# Task manager client — a Dafny model

This project models the browser client of a small project and task manager.

- The **session store** (`AuthProvider`) handles login, registration, logout and profile refresh. It also restores a session at start-up from the stored `auth_token` and a profile call.
- The **HTTP adapter** has two interceptors:
  - the request interceptor attaches `Authorization: Bearer <token>`;
  - the response interceptor wipes the stored session on a 401 and redirects to `/login`.
- The **data store** (`DataProvider`) holds the project and task collections and mutates them after each server call:
  - create appends;
  - update replaces by id;
  - delete filters by id;
  - deleting a project cascades to its tasks.
- **Derived views:**
  - the tasks page's search, filters, five sort orders, project label and overdue flag;
  - the projects page's search, per-project counts and completion rate;
  - the profile page's statistics and completion rate.
- **Dialogs:** the task and project dialogs, with their form prefill, field edits, submit normalisation and dispatch to the store.

Modules, in dependency order:

- `Wrappers`: `Option`.
- `Seqs`: `Array.prototype.filter` and the replace-by-id `map`, with the facts the stores rely on (subsequence, multiplicity, append, monotonicity, complement).
- `Text`, the string operations the client uses:
  - ASCII `toLowerCase`;
  - `includes`;
  - `split(sep)[0]`;
  - decimal `toString` and `parseInt`, with their round trip;
  - `localeCompare` as the lexicographic order of code points, proved a total order.
- `Percent`: `Math.round(done / total * 100)` in exact integers.
- `Storage`: the `localStorage` map as a class.
- `Api`: the records, call outcomes and the two interceptors.
- `DataStore`: the data store class and its collection transitions.
- `Session`: the session store class.
- `TasksPage`, `ProjectsPage`, `ProfilePage`: the derived views. The tasks page's sort is an in-place insertion sort on an `array`.
- `TaskModal`, `ProjectModal`: the dialogs as classes holding `formData` and `isLoading`.

Inputs from outside the client are parameters of the model:

- **Server answers.** Each call's answer is an `Outcome`: the success value, or an `ApiError` with the optional HTTP status and server message. It is the outcome the caller sees after the response interceptor has run.
  - For the session store, the success value is the body itself.
  - For the data store, it is the field of the body that the store reads: `projects`, `tasks`, `project` or `task`.
- **Dates and the clock.** `new Date(s).getTime()` is a function `timeOf` supplied by the caller, and `new Date()` is a number `now`.

## Model

| member | source | states |
|---|---|---|
| Seqs.Filter | src/contexts/DataContext.tsx:118-119 | the result is no longer than the input; an element is in it exactly when it is in the input and satisfies the predicate |
| Seqs.ReplaceWhere | src/contexts/DataContext.tsx:100 | same length; a selected position holds the replacement and every other position keeps its element |
| Seqs.ReplaceWhereNoHit | src/contexts/DataContext.tsx:155 | when nothing is selected, the replacement is the identity |
| Seqs.FilterIsSubsequence | src/contexts/DataContext.tsx:173 | filtering keeps the surviving elements in their original relative order |
| Seqs.FilterMultiplicity | src/contexts/DataContext.tsx:173 | a kept value occurs as often as in the input, and a dropped value does not occur |
| Seqs.FilterAppend | src/contexts/DataContext.tsx:137 | filtering distributes over concatenation |
| Seqs.FilterKeepsAll | src/components/tasks/TasksPage.tsx:23-31 | when every element satisfies the predicate, the filter is the identity |
| Seqs.FilterMonotone | src/components/projects/ProjectsPage.tsx:27-33 | a stronger predicate never keeps more elements |
| Seqs.FilterComplement | src/contexts/DataContext.tsx:119 | a predicate and its negation split the sequence's length between them |
| Text.ToLower | src/components/tasks/TasksPage.tsx:24 | same length, each character lowered independently |
| Text.IncludesIffOccurs | src/components/tasks/TasksPage.tsx:24-25 | `includes` holds exactly when the needle occurs at some index (`Occurs`) |
| Text.Includes | src/components/tasks/TasksPage.tsx:24 | holds for the empty needle and for a prefix, and never for a needle longer than the text |
| Text.BeforeFirst | src/components/tasks/TaskModal.tsx:42 | the result is a prefix without the separator, and it stops right at the first separator if there is one |
| Text.NatToString | src/components/tasks/TaskModal.tsx:43 | non-empty, all digits, no leading zero |
| Text.IntToString | src/components/tasks/TasksPage.tsx:28 | non-empty, starting with a sign or a digit |
| Text.LeadingDigits | src/components/tasks/TaskModal.tsx:64 | the longest run of digits at the start of the text |
| Text.ParseInt | src/components/tasks/TaskModal.tsx:64 | `NaN` for an empty text and for one that starts with neither a sign nor a digit; a non-negative number for a text that starts with a digit; never positive after a minus sign |
| Text.ParseIntToString | src/components/tasks/TaskModal.tsx:43-64 | `parseInt` of the decimal spelling of any integer gives that integer back |
| Text.LocaleCompare | src/components/tasks/TasksPage.tsx:37 | the result is -1, 0 or 1, and 0 exactly for equal strings |
| Text.LocaleCompareAntisymmetric | src/components/tasks/TasksPage.tsx:37 | swapping the operands negates the result |
| Text.LocaleCompareTransitive | src/components/tasks/TasksPage.tsx:47 | "not after" is transitive |
| Percent.CompletionRate | src/components/profile/ProfilePage.tsx:30-32 | 0 without tasks; otherwise the integer nearest to `100 * done / total`, halves rounded up |
| Percent.CompletionRateBounds | src/components/projects/ProjectsPage.tsx:106 | with at most `total` done: between 0 and 100, 100 when all are done, 0 when none are |
| Storage.WithoutSession | src/services/api.ts:33-34 | both session keys are gone and every other entry is kept |
| Storage.HasValue | src/services/api.ts:17-18 | JavaScript truthiness of a stored value: a missing key or the empty string is falsy |
| Storage.LocalStorage.GetItem | src/contexts/AuthContext.tsx:37 | `null` exactly when the key is absent, else the stored value |
| Storage.LocalStorage.SetItem | src/contexts/AuthContext.tsx:59-60 | the map gains or overwrites exactly that key |
| Storage.LocalStorage.RemoveItem | src/contexts/AuthContext.tsx:111-112 | the map loses exactly that key |
| Api.StatusDomain | src/services/api.ts:64 | a status is spelled by exactly the three strings `pending`, `in_progress` and `completed`, one per status |
| Api.PriorityDomain | src/services/api.ts:65 | a priority is spelled by exactly `low`, `medium` and `high`, one per priority |
| Api.ErrorMessage | src/contexts/DataContext.tsx:90 | the server's message when it is non-empty, the operation's fallback otherwise |
| Api.WithBearer | src/services/api.ts:17-20 | with a non-empty stored token, `Authorization` is `Bearer <token>`; without one the headers are unchanged; other headers are never touched |
| Api.HttpClient.InterceptRequest | src/services/api.ts:16-22 | the request's headers become `WithBearer` of the stored items, and the same request is passed on |
| Api.HttpClient.InterceptResponse | src/services/api.ts:29-39 | the outcome passes through unchanged; on a 401 the session keys are wiped and the location becomes `/login`, otherwise nothing changes |
| DataStore.Appended | src/contexts/DataContext.tsx:82 | the old collection followed by the created entity |
| DataStore.ReplaceProject | src/contexts/DataContext.tsx:100 | every project with the id becomes the server's copy; the others and the length are unchanged |
| DataStore.ReplaceTask | src/contexts/DataContext.tsx:155 | every task with the id becomes the server's copy; the others and the length are unchanged |
| DataStore.WithoutProject | src/contexts/DataContext.tsx:118 | exactly the projects with another id |
| DataStore.WithoutProjectTasks | src/contexts/DataContext.tsx:119 | exactly the tasks not belonging to the project, including those without a project |
| DataStore.WithoutTask | src/contexts/DataContext.tsx:173 | exactly the tasks with another id |
| DataStore.CreateTaskCountsId | src/contexts/DataContext.tsx:137 | create does not check for a duplicate: the count of tasks with the new id grows by one, and is one only if the id was new |
| DataStore.CreateProjectCountsId | src/contexts/DataContext.tsx:82 | the same for projects |
| DataStore.UpdateTaskWithoutMatch | src/contexts/DataContext.tsx:155 | an update whose id matches nothing leaves the tasks unchanged |
| DataStore.DeleteTaskKeepsOthers | src/contexts/DataContext.tsx:170-186 | after deleting, no task has the id; every other task keeps its multiplicity and the order is kept |
| DataStore.DeleteProjectCascades | src/contexts/DataContext.tsx:115-132 | no project with the id and no task of that project remain; everything else keeps its multiplicity and order |
| DataStore.Store.constructor | src/contexts/DataContext.tsx:36-38 | both collections empty, not loading |
| DataStore.Store.RefreshProjects | src/contexts/DataContext.tsx:47-61 | on success the projects are the server's list, on failure they are kept and "Failed to load projects" is reported; tasks untouched; loading ends false |
| DataStore.Store.RefreshTasks | src/contexts/DataContext.tsx:63-77 | the same for tasks, with "Failed to load tasks" |
| DataStore.Store.OnAuthenticationChanged | src/contexts/DataContext.tsx:40-45 | both collections are refreshed only when authenticated; otherwise nothing changes |
| DataStore.Store.CreateProject | src/contexts/DataContext.tsx:79-95 | success appends the server's project and says "Project created successfully"; failure changes nothing and reports the server message or "Failed to create project" |
| DataStore.Store.UpdateProject | src/contexts/DataContext.tsx:97-113 | success replaces by id, failure changes nothing; messages as the source words them |
| DataStore.Store.DeleteProject | src/contexts/DataContext.tsx:115-132 | success removes the project and its tasks in one step; failure changes nothing |
| DataStore.Store.CreateTask | src/contexts/DataContext.tsx:134-150 | success appends the server's task; failure changes nothing; projects are never touched |
| DataStore.Store.UpdateTask | src/contexts/DataContext.tsx:152-168 | success replaces by id; failure changes nothing |
| DataStore.Store.DeleteTask | src/contexts/DataContext.tsx:170-186 | success removes every task with the id; failure changes nothing |
| Session.Serialize | src/contexts/AuthContext.tsx:60 | the stored user record is a text of at least two characters opening with `{` and closing with `}`; its fields are not stated |
| Session.StoredToken | src/contexts/AuthContext.tsx:59 | the stored token is the one received, or the text "undefined" when the body had none |
| Session.StoredUser | src/contexts/AuthContext.tsx:60 | the stored user record is the serialised user, or the text "undefined" when the body had none |
| Session.OpenedUser | src/contexts/AuthContext.tsx:61 | a user is held exactly when the body carried one, and it is that user without a `payload` level |
| Session.Opened | src/contexts/AuthContext.tsx:59-60 | the token and the user record as stored are written and every other entry is kept |
| Session.SessionTokenPresence | src/services/api.ts:17-18 | after a session is opened the token counts as present unless it was received as the empty text (a missing one is stored as "undefined" and counts); after a wipe it never does |
| Session.AuthProvider.constructor | src/contexts/AuthContext.tsx:30-31 | nobody logged in, restoration pending |
| Session.AuthProvider.IsAuthenticated | src/contexts/AuthContext.tsx:33 | authenticated exactly when a user is held |
| Session.AuthProvider.Login | src/contexts/AuthContext.tsx:53-77 | success needs a body with a `payload`; it stores the token and user as received ("undefined" for a missing one) and holds the bare user, or nobody when `user` is missing; otherwise nothing changes and the message is the server's or "Invalid credentials"; loading ends false |
| Session.AuthProvider.Register | src/contexts/AuthContext.tsx:79-103 | every successful answer reports success, stores token and user as received ("undefined" for a missing one) and holds the user, or nobody when `user` is missing; a failure changes nothing and reports the server's message or "Failed to create account"; loading ends false |
| Session.MissingCredentialsStoreUndefined | src/contexts/AuthContext.tsx:83-87 | a body without `token` and `user` stores "undefined" under both keys, which counts as a stored token and sends `Bearer undefined`, while nobody is held |
| Session.RegisterWithEnvelope | src/contexts/AuthContext.tsx:79-93 | a registration answered with a `payload` envelope returns success yet leaves nobody authenticated and "undefined" stored as the token |
| Session.AuthProvider.Logout | src/contexts/AuthContext.tsx:105-118 | whatever the server answers, the user is cleared and both session keys are removed |
| Session.AuthProvider.RefreshUser | src/contexts/AuthContext.tsx:120-128 | success holds the profile body as the user; failure is reported and leaves the user untouched |
| Session.AuthProvider.InitAuth | src/contexts/AuthContext.tsx:35-51 | with a non-empty stored token the profile is fetched, and a failure wipes the session keys; without one nothing changes; loading ends false |
| Session.Start | src/contexts/AuthContext.tsx:29-51 | after start-up the client is authenticated exactly when a token was stored and the profile call succeeded |
| Session.LoginThenLogout | src/contexts/AuthContext.tsx:53-118 | login followed by logout leaves nobody authenticated and no session keys stored |
| TasksPage.FilterTasks | src/components/tasks/TasksPage.tsx:23-31 | a task is shown exactly when it matches the search and the status, priority and project filters |
| TasksPage.FilteredIsSubsequence | src/components/tasks/TasksPage.tsx:23 | filtering keeps the store's order |
| TasksPage.MatchesSearch | src/components/tasks/TasksPage.tsx:24-25 | the lowered title, or the lowered description when there is one, contains the lowered term at some position |
| TasksPage.Matches | src/components/tasks/TasksPage.tsx:23-31 | a kept task matches the search; a project filter other than `all` keeps only tasks whose id the filter text parses to; the initial selectors keep every task |
| TasksPage.UnfilteredKeepsAll | src/components/tasks/TasksPage.tsx:14-18 | with the initial selectors, every task is shown |
| TasksPage.IntToStringInjective | src/components/tasks/TasksPage.tsx:28 | two ids with the same decimal spelling are equal |
| TasksPage.KeptTasksMatchFilters | src/components/tasks/TasksPage.tsx:26-28 | a filter other than `all` keeps only tasks with that status, priority or project id |
| TasksPage.Compare | src/components/tasks/TasksPage.tsx:34-51 | which task goes first for each key: equal titles or statuses tie; higher priority first; dated before undated, earlier date first; otherwise newer creation first |
| TasksPage.CompareAntisymmetric | src/components/tasks/TasksPage.tsx:34-51 | swapping the two tasks negates the comparator, for every key |
| TasksPage.InOrderTotal | src/components/tasks/TasksPage.tsx:34-51 | the comparator orders any two tasks one way or the other |
| TasksPage.InOrderTransitive | src/components/tasks/TasksPage.tsx:34-51 | the comparator's order is transitive for every sort key |
| TasksPage.Swap | src/components/tasks/TasksPage.tsx:34 | exchanges two slots and keeps the multiset |
| TasksPage.SortInPlace | src/components/tasks/TasksPage.tsx:34-51 | the array ends sorted under the chosen comparator and is a permutation of its old contents |
| TasksPage.FilteredAndSortedTasks | src/components/tasks/TasksPage.tsx:22-54 | the list shown is a sorted permutation of the filtered tasks |
| TasksPage.PrioritySortOrder | src/components/tasks/TasksPage.tsx:38-40 | sorting by priority puts high before medium before low |
| TasksPage.DueDateSortOrder | src/components/tasks/TasksPage.tsx:41-45 | tasks with a due date come first, earliest first; tasks without one come last |
| TasksPage.DefaultSortOrder | src/components/tasks/TasksPage.tsx:48-49 | any other key sorts newest first by creation time |
| TasksPage.TextSortOrder | src/components/tasks/TasksPage.tsx:36-37 | sorting by title or status puts the strings in ascending `localeCompare` order |
| TasksPage.FindProject | src/components/tasks/TasksPage.tsx:74 | `undefined` exactly when no project has the id, else a project with that id |
| TasksPage.FindProjectIsFirst | src/components/tasks/TasksPage.tsx:74 | the project found is the first in the list with that id |
| TasksPage.ProjectName | src/components/tasks/TasksPage.tsx:72-76 | "No Project" for a missing or zero id, "Unknown Project" when no project matches, else the matching project's name |
| TasksPage.IsOverdue | src/components/tasks/TasksPage.tsx:82-85 | overdue exactly when the task has a due date, is not completed, and the due time is before now |
| TasksPage.CompletionClearsOverdue | src/components/tasks/TasksPage.tsx:83 | completing a past-due task clears the overdue flag |
| ProjectsPage.FilterProjects | src/components/projects/ProjectsPage.tsx:19-25 | a project is shown exactly when its name or description contains the search term, ignoring case |
| ProjectsPage.FilteredProjectsInOrder | src/components/projects/ProjectsPage.tsx:19-25 | the store order is kept, and an empty search shows every project |
| ProjectsPage.MatchesSearch | src/components/projects/ProjectsPage.tsx:19-25 | the lowered name, or the lowered description when there is one, contains the lowered term at some position; an empty term matches every project |
| ProjectsPage.TaskCount | src/components/projects/ProjectsPage.tsx:27-29 | at most the number of tasks, and 0 exactly when no task belongs to the project |
| ProjectsPage.CompletedCount | src/components/projects/ProjectsPage.tsx:31-33 | 0 exactly when no task of the project is completed |
| ProjectsPage.CompletedAtMostTotal | src/components/projects/ProjectsPage.tsx:27-33 | a project never has more completed tasks than tasks |
| ProjectsPage.CascadeRemovesCountedTasks | src/components/projects/ProjectsPage.tsx:27-29 | deleting the project removes exactly as many tasks as its card counts |
| ProjectsPage.ProjectCompletionRate | src/components/projects/ProjectsPage.tsx:104-106 | the rounded percentage `CompletionRate` of the project's completed tasks over its tasks; between 0 and 100, 0 for a project without tasks, 100 when all its tasks are completed |
| ProfilePage.StatusCount | src/components/profile/ProfilePage.tsx:25-27 | at most the number of tasks; 0 exactly when no task has the status; all of them when every task has it |
| ProfilePage.StatusCountsPartition | src/components/profile/ProfilePage.tsx:25-27 | the completed, pending and in-progress counts add up to the number of tasks |
| ProfilePage.Stats | src/components/profile/ProfilePage.tsx:22-28 | the totals are the collection sizes, each status tally is the number of tasks with that status, and the three tallies add up to the task total |
| ProfilePage.ActiveCount | src/components/profile/ProfilePage.tsx:118 | the active tile shows every task that is not completed |
| ProfilePage.OverallRate | src/components/profile/ProfilePage.tsx:30-32 | the rounded percentage `CompletionRate` of completed over total; between 0 and 100; 0 without tasks or without completed tasks, 100 when all are completed |
| ProfilePage.CurrentUser | src/components/profile/ProfilePage.tsx:10 | a current user exists only when the held user came with a `payload` |
| ProfilePage.View | src/components/profile/ProfilePage.tsx:14-32 | the spinner shows exactly when there is no current user; otherwise the current user with `Stats` of the store, its `OverallRate` and the active count |
| ProfilePage.AllCompletedShowsFullRate | src/components/profile/ProfilePage.tsx:25-32 | with a non-empty task list all completed, the rate shown is 100 and nothing is active |
| ProfilePage.FreshLoginShowsSpinner | src/components/profile/ProfilePage.tsx:10-20 | with the user record that login and registration store, which has no `payload`, the page shows its spinner |
| TaskModal.Prefill | src/components/tasks/TaskModal.tsx:35-55 | blank form for a new task; when editing, the task's values, with the due date cut before the first `T` and a project id that parses back to the task's own |
| TaskModal.WithField | src/components/tasks/TaskModal.tsx:86-91 | the named field takes the value and every other field keeps its own |
| TaskModal.Submission | src/components/tasks/TaskModal.tsx:62-66 | an empty project id or due date is left out, a non-empty project id is parsed, and the other fields pass through |
| TaskModal.PrefillSubmitRoundTrip | src/components/tasks/TaskModal.tsx:37-66 | submitting an untouched edit form sends back the task's own title, status, priority and project id, and no due date when it had none |
| TaskModal.BlankSubmission | src/components/tasks/TaskModal.tsx:45-66 | an untouched new-task form sends status `pending`, priority `medium`, and no project and no due date |
| TaskModal.TaskDialog.constructor | src/components/tasks/TaskModal.tsx:25-33 | blank form, not loading |
| TaskModal.TaskDialog.Open | src/components/tasks/TaskModal.tsx:35-55 | the form becomes the prefill for the task |
| TaskModal.TaskDialog.HandleChange | src/components/tasks/TaskModal.tsx:86-91 | only the named field changes |
| TaskModal.TaskDialog.HandleSubmit | src/components/tasks/TaskModal.tsx:57-84 | sends the normalised form; it updates when editing and creates otherwise, closes only on success, and loading ends false; the store's loading flag is kept, and the message is the store's notice for the update or the creation |
| ProjectModal.Prefill | src/components/projects/ProjectModal.tsx:32-46 | blank form with status `active` for a new project; when editing, the project's name and status, and its description or `""` |
| ProjectModal.WithField | src/components/projects/ProjectModal.tsx:71-76 | the named field takes the value and every other field keeps its own |
| ProjectModal.WithFieldOwnValue | src/components/projects/ProjectModal.tsx:71-76 | writing back a field's own value leaves the form as it was |
| ProjectModal.ProjectDialog.constructor | src/components/projects/ProjectModal.tsx:25-30 | blank form, not loading |
| ProjectModal.ProjectDialog.Open | src/components/projects/ProjectModal.tsx:32-46 | the form becomes the prefill for the project |
| ProjectModal.ProjectDialog.HandleChange | src/components/projects/ProjectModal.tsx:71-76 | only the named field changes |
| ProjectModal.ProjectDialog.HandleSubmit | src/components/projects/ProjectModal.tsx:48-69 | sends the form; it updates when editing and creates otherwise, closes only on success, and loading ends false; the store's loading flag is kept, and the message is the store's notice for the update or the creation |

## Left out

- The HTTP transport, the toast notifications, rendering, routing and `console` logging. A server answer is a parameter, and each operation returns the notice text it would show.
- Asynchrony. Each operation runs to completion before the next starts, so interleavings (two refreshes sharing one `isLoading` flag, a response arriving after logout) are not modelled.
- Unicode. `toLowerCase` is modelled for ASCII letters only, and `localeCompare` as lexicographic order of code points rather than locale collation.
- Date parsing. `new Date(s).getTime()` is an arbitrary integer-valued function, so an unparsable date (NaN, which makes every comparison false) is not modelled.
- `Percent.CompletionRate`: computed exactly. JavaScript computes `done / total * 100` in floating point before `Math.round`, which can land one below a true half (29 of 200 shows 14, not 15).
- `Text.ParseInt`: does not skip leading whitespace and has no precision limit. It also reads every text in base 10: the client calls `parseInt` without a radix, so a text with a `0x` prefix would be read as hexadecimal. The texts it reads in the client come from `toString` or from the project select, so none of these cases arises there.
- `TasksPage.SortInPlace` and `TasksPage.FilteredAndSortedTasks`: stability is not proved, so tasks with equal keys may appear in any order. Only sortedness under the comparator and the permutation are stated.
- `Session.Serialize`: does not escape quotes or control characters inside strings, and its contract states only the record's outer shape. The client writes and removes `user_data` but never reads it back, so no round trip is promised.
- The shape of the registration and profile bodies:
  - login reads `payload.token` and `payload.user`, while registration reads `token` and `user` at the top level;
  - the model follows the code in both, including a body that lacks the fields: they are then `undefined`, stored as the text "undefined", and no user is held (`Session.RegisterWithEnvelope`);
  - a session opened by login or registration therefore has no `payload`, and `ProfilePage.FreshLoginShowsSpinner` states that the profile page then shows its spinner.
- The stores (`Session.AuthProvider` and `DataStore.Store`) take outcomes after the response interceptor. A 401's storage wipe and redirect are modelled once, in `Api.HttpClient.InterceptResponse`. So a contract such as `Session.AuthProvider.Login`'s "a failure leaves storage unchanged" describes the store's own handler; in the running client, a 401 has already removed both session keys before the handler runs.
- `DataStore.Store.RefreshProjects`, `DataStore.Store.RefreshTasks`, `DataStore.Store.CreateProject`, `DataStore.Store.UpdateProject`, `DataStore.Store.CreateTask`, `DataStore.Store.UpdateTask`: a success body without the `projects`, `tasks`, `project` or `task` field is not modelled. The success value is always the field's content. In the source such a body puts `undefined` into the collection (as the whole list, an appended entry or a replacement), and the next render of the pages then fails.
- `handleChange` takes any string name in the source. In the model the field names are the form's own (`TaskField`, `ProjectField`); an unknown name, which would add a stray field, is not modelled.
- `Project.status` is a plain string, as the client's type declares; it is not an enumeration.
- The delete confirmation dialog (`window.confirm`) and the open/close state of the dialogs are not modelled.
