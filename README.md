# A verified model of a couple's shift-and-chores planner

The application lets two partners (夫 and 妻) record each day's work shift and share a list of household tasks.
Its client keeps a cache of three remote tables: profiles, shifts and tasks.
Every write goes to the remote store first; only when that write succeeds is the written collection refetched.
The pages on top of the store are thin rules:

- the task dialog turns form fields into an `addTask` or `updateTask` call;
- the task list filters today's tasks;
- the home page groups them per partner and counts the completed ones;
- the shift page computes a Monday-first week and guards its save button;
- the login page checks the form before calling the authentication service.

The Dafny project models these as follows:

- `wrappers.dfy`: an `Option` type.
- `seqs.dfy`: JavaScript's `find` and `filter`, with their first-match and order-preserving sub-list contracts.
- `text.dfy`: `trim` over the ECMAScript whitespace set, `length` in UTF-16 code units, `parseInt` without a radix (decimal, or hexadecimal after `0x`) and integer `toString`, with their round trip.
- `types.dfy`: the vocabulary of `lib/types.ts`: four shift kinds, two roles, six categories, five frequencies, the records and the three option tables.
- `remote.dfy`: the remote tables as rows with the database's column names. It holds the upsert on `(user_id, date)`, the insert, the update by id with a column patch, and the delete by id. The `Database` class holds the tables and their key constraints.
- `store.dfy`: the row mappers and the queries `getShift`, `getTasksForDate` and `currentProfile`. It builds the `dbUpdates` patch field by field, models `toggleTask`, and holds the `AppProvider` class: the session, the three SWR cache entries, and every write followed by its refetch.
- `task_modal.dfy`, `tasks_content.dfy`, `dashboard_content.dfy`, `shift_content.dfy`, `login_page.dfy`: the page rules.

Things outside the program are parameters:

- whether a remote call is rejected is a `rejected` flag;
- the id the database gives a new row is `newId`;
- today's date is a parameter;
- the error the authentication service answers with is an optional string.

Shift-page dates are day numbers counted from 1970-01-01, a Thursday.

## Model

| member | source | states |
|---|---|---|
| Seqs.Find | lib/store.tsx:152 | `find`: none exactly when no element satisfies the predicate; otherwise an element that satisfies it and has no satisfying element before it |
| Seqs.Filter | lib/store.tsx:204 | `filter`: the elements satisfying the predicate, each with its multiplicity, in their original order (a sub-list), and no longer than the input |
| Seqs.FilterAppend | lib/store.tsx:204 | filtering a list with one element appended is filtering the list, then appending that element if it passes |
| Seqs.FindAgrees | lib/store.tsx:152 | `find` gives the same answer on two lists that agree wherever the predicate can hold |
| Text.Trim | components/task-modal.tsx:63 | `trim()` is no longer than its input, is empty exactly when the input is all whitespace, and otherwise neither starts nor ends with whitespace |
| Text.TrimIsSlice | components/task-modal.tsx:63 | `trim()` is a contiguous slice of its input, and every character cut off on either side of the slice is whitespace |
| Text.TrailingCut | components/task-modal.tsx:63 | when the characters before the kept slice and those after it are whitespace, everything outside the slice is whitespace (the step `trim()`'s two cuts combine through) |
| Text.TrimIdempotent | app/login/page.tsx:56 | a trimmed string trims to itself, so the name sent at sign-up is already trimmed |
| Text.Utf16Length | app/login/page.tsx:37 | `length` counts UTF-16 code units: between one and two per character |
| Text.Utf16LengthCountsAstral | app/login/page.tsx:37 | `length` in UTF-16 code units is the number of characters plus the number of astral characters, each stored as a surrogate pair |
| Text.ReadDigits | components/task-modal.tsx:74 | the digit run `parseInt` reads is absent exactly when the string does not start with a digit of the radix; otherwise its value is the positional value of the whole leading run |
| Text.ParseOfDigits | components/task-modal.tsx:74 | on a string starting with a decimal digit and no `0x` prefix, `parseInt` is the decimal value of its leading digit run |
| Text.ParseOfHex | components/task-modal.tsx:74 | after a `0x` or `0X` prefix, `parseInt` without a radix is the hexadecimal value of the digit run that follows, and `NaN` without one |
| Text.HexExample | components/task-modal.tsx:74 | `parseInt("0x1F")` is 31 |
| Text.NegativeHexExample | components/task-modal.tsx:74 | `parseInt("-0x10")` is -16: the sign is read before the prefix |
| Text.ParseInt | components/task-modal.tsx:74 | `parseInt` of an all-whitespace string, or of one with no decimal digit anywhere, is `NaN` |
| Text.ParseOfMinus | components/task-modal.tsx:74 | after a leading `-`, `parseInt` is the negated value of the number that follows (hexadecimal after `0x`), and `NaN` without one |
| Text.ReadAllDigitsIn | components/task-modal.tsx:74 | a non-empty string made only of digits of the radix is read whole, to its positional value |
| Text.IntToString | components/task-modal.tsx:46 | `toString()` of an integer is non-empty, starts with `-` exactly when the integer is negative, and is decimal digits after that |
| Text.ParseIntOfIntToString | components/task-modal.tsx:74 | `parseInt` reads back what `toString` (line 46) wrote, for every integer |
| Types.WithId | lib/types.ts:20-29 | a task is its draft's fields plus the id; only category, duration and frequency are optional |
| Types.ShiftTypesComplete | lib/types.ts:31-36 | SHIFT_TYPES lists each of the four shift kinds once, in the order 日勤, 夜勤, 明け, 休日, each labelled with its own literal |
| Types.CategoriesComplete | lib/types.ts:38 | CATEGORIES lists each of the six categories once |
| Types.FrequenciesComplete | lib/types.ts:39 | FREQUENCIES lists each of the five frequencies once |
| Types.NamesInjective | lib/types.ts:1-4 | distinct kinds, categories and frequencies have distinct stored literals |
| Remote.ApplyPatch | lib/store.tsx:182 | a column absent from the patch keeps its value |
| Remote.UpsertShiftRows | lib/store.tsx:140-142 | an upsert keeps every row of another `(user_id, date)` pair in place, adds at most one row, and leaves a row of the pair carrying the kind written |
| Remote.DeleteTaskRows | lib/store.tsx:188 | a delete keeps exactly the rows with another id, each with its multiplicity, in their original order |
| Remote.UpdateTaskRows | lib/store.tsx:182 | `update(...).eq("id", id)` patches exactly the rows with that id and keeps the others and the order |
| Remote.UpsertWritesKey | lib/store.tsx:140-143 | after an upsert the pair is held by one row carrying the kind written, and the conflict key stays unique |
| Remote.UpsertKeepsOtherRows | lib/store.tsx:140-143 | an upsert changes no row of another pair and adds at most one row, for the pair |
| Remote.UpsertTwice | lib/store.tsx:140-143 | two upserts of the same pair equal one upsert of the second kind with the first id: the row keeps its id |
| Remote.DeleteRemovesId | lib/store.tsx:188 | a delete removes every row with the id, keeps the rest in order, and keeps the primary key unique |
| Remote.UpdateKeepsIds | lib/store.tsx:182 | a patch without `id` changes no row's id |
| Remote.Database.UpsertShift | lib/store.tsx:140-144 | a rejected upsert changes nothing; an accepted one is the keyed upsert, and the key stays unique |
| Remote.Database.InsertTask | lib/store.tsx:159-168 | a rejected insert changes nothing; an accepted one appends the row |
| Remote.Database.UpdateTask | lib/store.tsx:182-183 | a rejected update changes nothing; an accepted one patches the rows with the id |
| Remote.Database.DeleteTask | lib/store.tsx:188-189 | a rejected delete changes nothing; an accepted one removes the rows with the id |
| Store.FetchProfiles | lib/store.tsx:29-41 | one profile per row, in row order, with `user_id` read as `userId` |
| Store.FetchShifts | lib/store.tsx:43-55 | one shift per row, in row order |
| Store.FetchTasks | lib/store.tsx:57-73 | one task per row, in row order; a NULL optional column becomes an absent field |
| Store.NewTaskRowRoundTrip | lib/store.tsx:159-167 | the row addTask inserts reads back as the draft with its id; an omitted optional field stays absent |
| Store.GetShift | lib/store.tsx:150-155 | the first cached shift of the user on the date, or none exactly when there is no such shift |
| Store.GetTasksForDate | lib/store.tsx:202-207 | exactly the cached tasks of the date, each with its multiplicity, in cache order |
| Store.CurrentProfile | lib/store.tsx:127 | none without a user; otherwise the first profile whose `userId` is the user's id, or none exactly when there is no such profile |
| Store.UpsertThenGetShift | lib/store.tsx:138-155 | after an upsert and the refetch, `getShift` finds the pair with the kind written, and every other pair's shift is unchanged |
| Store.UpsertKeepsOtherShift | lib/store.tsx:140-152 | an upsert leaves `getShift` of every other pair as it was |
| Store.SecondUpsertWins | lib/store.tsx:140-143 | after two upserts of the pair the second kind wins and the pair still has one row |
| Store.AddThenTasksForDate | lib/store.tsx:158-170 | after addTask and the refetch, the day's list is the old list with the new task appended at its end |
| Store.DeleteThenTasksForDate | lib/store.tsx:187-191 | after deleteTask and the refetch, no cached task and no day's list holds the id |
| Store.PatchOf | lib/store.tsx:173-180 | the patch never names `id` and names each other column exactly when that field of the update is defined |
| Store.PatchOfValues | lib/store.tsx:174-180 | each entry of the patch carries the update's value for its field |
| Store.FillInSourceOrderIsPatch | lib/store.tsx:173-180 | putting the defined fields in one after another, in the source's order, gives the patch, whatever the order |
| Store.BuildPatch | lib/store.tsx:173-180 | filling `dbUpdates` field by field in the source's order yields exactly that patch |
| Store.PatchMeansMerge | lib/store.tsx:172-184 | applying the patch to a row is merging the update into its task: defined fields replaced, undefined fields kept |
| Store.Merge | lib/store.tsx:172-184 | merging an update keeps the task's id, and merging the empty update changes nothing |
| Store.UpdateMeansMerge | lib/store.tsx:172-184 | after updateTask, the task with the id is the merge and every other task is unchanged |
| Store.ToggleUpdates | lib/store.tsx:197 | the toggle update sets `isCompleted` to the negation and nothing else |
| Store.TogglePatch | lib/store.tsx:197 | the toggle's patch has the single entry `is_completed := !isCompleted` |
| Store.ToggleRows | lib/store.tsx:193-200 | toggleTask keeps the table's length and every row's id, and an id missing from the cached tasks leaves the table unchanged |
| Store.ToggleFlipsOnlyFlag | lib/store.tsx:193-200 | toggleTask flips `is_completed` of the row with the id and changes nothing else; an unknown id changes nothing |
| Store.ToggleTwice | lib/store.tsx:193-200 | toggling twice restores the table |
| Store.ToggleTwiceRestores | lib/store.tsx:193-200 | two accepted toggleTask calls on a store whose cache mirrors the table leave the table as it was |
| Store.AppProvider.constructor | lib/store.tsx:96-97 | no user, auth not ready, nothing fetched |
| Store.AppProvider.Profiles | lib/store.tsx:112-115 | `[]` while auth is not ready or there is no user, and `[]` while the key is active but nothing is fetched yet; otherwise the fetched profiles |
| Store.AppProvider.Shifts | lib/store.tsx:117-120 | `[]` while auth is not ready or there is no user, and `[]` while the key is active but nothing is fetched yet; otherwise the fetched shifts |
| Store.AppProvider.Tasks | lib/store.tsx:122-125 | `[]` while auth is not ready or there is no user, and `[]` while the key is active but nothing is fetched yet; otherwise the fetched tasks |
| Store.AppProvider.IsLoading | lib/store.tsx:128 | true while auth is not ready; false when ready without a user; with a user, true exactly while a collection is unfetched |
| Store.AppProvider.ResolveSession | lib/store.tsx:100-103 | the first `getUser()` records the user and marks auth ready |
| Store.AppProvider.Revalidate | lib/store.tsx:112-125 | with the keys active each cache becomes its table's contents; with no key active nothing is fetched |
| Store.AppProvider.Logout | lib/store.tsx:131-135 | the user is cleared |
| Store.AppProvider.RefreshShifts | lib/store.tsx:145 | `globalMutate("shifts")` refetches the shifts when the key is active |
| Store.AppProvider.RefreshTasks | lib/store.tsx:169 | `globalMutate("tasks")` refetches the tasks when the key is active |
| Store.AppProvider.UpsertShift | lib/store.tsx:138-148 | on rejection no table and no cache changes; on success the table is upserted, the cache refetched, and `getShift` returns the kind written |
| Store.AppProvider.AddTask | lib/store.tsx:158-170 | on rejection nothing changes; on success the row is appended and the cache refetched |
| Store.AppProvider.UpdateTask | lib/store.tsx:172-185 | on rejection nothing changes; on success the defined fields are written and the cache refetched |
| Store.AppProvider.DeleteTask | lib/store.tsx:187-191 | on rejection nothing changes; on success the rows go and the refetched cache holds no task with the id |
| Store.AppProvider.ToggleTask | lib/store.tsx:193-200 | an id missing from the cache resolves with no write; otherwise only `isCompleted := !isCompleted` is sent; with the cache mirroring the table, the table is toggled and the cache still mirrors it |
| TaskModal.DefaultAssigneeId | components/task-modal.tsx:32 | the first profile's id, or `""` without profiles |
| TaskModal.FormFor | components/task-modal.tsx:42-56 | the reset form holds the edited task's title, category, assignee and frequency, and a duration text that reads back as its duration; without a task, empty fields and the default assignee |
| TaskModal.DurationOf | components/task-modal.tsx:74 | an empty duration is absent; otherwise it is the integer parse |
| TaskModal.DraftOf | components/task-modal.tsx:79-87 | a new task has the trimmed title, today's date and `isCompleted = false`; an empty selection is absent |
| TaskModal.UpdatesOf | components/task-modal.tsx:71-77 | an edit never sends `id`, `date` or `isCompleted`; it sends the trimmed title and the assignee; an empty selection is undefined |
| TaskModal.EditKeepsUnsentFields | components/task-modal.tsx:71-77 | saving an edit keeps the task's id, date and completion flag, and a cleared category, duration or frequency keeps the stored value |
| TaskModal.UnchangedEditIsIdentity | components/task-modal.tsx:42-77 | opening a task with a trimmed title and saving it unchanged leaves it as it was |
| TaskModal.NewTaskFromForm | components/task-modal.tsx:79-87 | the stored new task reads back with the id, trimmed title, today's date and not completed; empty selections stay absent |
| TaskModal.SavedTasks | components/task-modal.tsx:70-88 | after a submit the table is unchanged on rejection; an edit patches only the task with its id, which reads back as the merge of the form's update; a new task is appended and reads back as the form's draft with the new id |
| TaskModal.Save | components/task-modal.tsx:69-88 | the store call of a submit: it succeeds exactly when the call is not rejected; the tasks table becomes `SavedTasks`; the profile and shift tables and caches are untouched; the tasks cache is refetched on success with the keys active, and kept otherwise |
| TaskModal.TaskDialog.constructor | components/task-modal.tsx:34-40 | empty fields with the default assignee, no error, not saving |
| TaskModal.TaskDialog.Reset | components/task-modal.tsx:42-57 | the fields become the edited task's (duration as text) or the empty form; the error is cleared |
| TaskModal.TaskDialog.HandleSubmit | components/task-modal.tsx:59-95 | a blank title sets the title error and calls nothing; otherwise the dialog closes exactly on success, shows the save error on failure, and `saving` ends false; the profile and shift caches are untouched, and the tasks cache is refetched only after an accepted write |
| TasksContent.RoleHolder | components/tasks-content.tsx:33-34 | the first profile with the role, or none exactly when no profile has it |
| TasksContent.RoleTasks | components/tasks-content.tsx:43-46 | `[]` without a role holder; otherwise exactly the tasks assigned to the holder, each with its multiplicity, as a sub-list |
| TasksContent.FilteredTasks | components/tasks-content.tsx:41-52 | every tab is a sub-list of today's tasks; "all" is today's tasks unchanged; "completed" is exactly the completed ones with their multiplicities; the role tabs are exactly the role holder's tasks with their multiplicities, `[]` without a holder |
| TasksContent.VisibleTasks | components/tasks-content.tsx:36-52 | the shown tasks are a sub-list of the cache, all dated today |
| TasksContent.RoleTabsDisjoint | components/tasks-content.tsx:43-46 | with distinct profile ids, no task is in both the husband tab and the wife tab |
| TasksContent.AssigneeName | components/tasks-content.tsx:54-56 | the name of the first profile with the id, or 不明 when none has it |
| TasksContent.AssigneeRole | components/tasks-content.tsx:58-60 | the role of the first profile with the id, or 不明 when none has it |
| TasksContent.HandleDelete | components/tasks-content.tsx:72-78 | deleteTask with a rejection swallowed: the tasks table is unchanged on rejection and otherwise has the rows removed; the profile and shift tables, the session and the other caches are untouched, and the tasks cache is refetched only after an accepted delete |
| DashboardContent.TodayShift | components/dashboard-content.tsx:27 | none without a user; otherwise the user's shift for today, none exactly when there is no such shift |
| DashboardContent.ShiftInfo | components/dashboard-content.tsx:30-32 | with a shift, the SHIFT_TYPES entry of its kind, always found; without one, none |
| DashboardContent.ShiftLabel | components/dashboard-content.tsx:69 | 未登録 without a shift, otherwise the kind's literal |
| DashboardContent.ShiftIcon | components/dashboard-content.tsx:64 | "?" without a shift, otherwise the kind's emoji from SHIFT_TYPES |
| DashboardContent.ShiftButtonLabel | components/dashboard-content.tsx:76 | the button reads 登録する exactly when there is no shift today, and 変更する exactly when there is one |
| DashboardContent.UnregisteredIffRegister | components/dashboard-content.tsx:64-76 | the card says 未登録 exactly when its button reads 登録する, and shows "?" exactly when there is no shift |
| DashboardContent.GreetingName | components/dashboard-content.tsx:54 | the current profile's name, or ユーザー without one |
| DashboardContent.Group | components/dashboard-content.tsx:34-44 | exactly today's tasks of the role holder, each with its multiplicity, as a sub-list of the cache; `[]` without a holder |
| DashboardContent.CompletedCount | components/dashboard-content.tsx:46-47 | at most the group size, and 0 exactly when no task of the group is completed |
| DashboardContent.CompletedCountIsCountDone | components/dashboard-content.tsx:46-47 | the count is the number of completed tasks, counted one by one |
| DashboardContent.CompletedCountFull | components/dashboard-content.tsx:144 | the badge reads total/total exactly when every task of the group is completed |
| ShiftContent.Weekday | components/shift-content.tsx:13 | `getDay()` lies in 0..6 |
| ShiftContent.MondayOffset | components/shift-content.tsx:15 | the offset `(day + 6) % 7` lies in 0..6 and goes back to a Monday |
| ShiftContent.WeekStart | components/shift-content.tsx:13-15 | a Monday, on or within six days before the base date |
| ShiftContent.WeekStartUnique | components/shift-content.tsx:13-15 | it is the only such Monday |
| ShiftContent.GetWeekDates | components/shift-content.tsx:12-23 | seven consecutive days, the first the Monday of the base date's week, the base date among them |
| ShiftContent.BaseDate | components/shift-content.tsx:40-44 | moving by whole weeks keeps the weekday |
| ShiftContent.WeekOfOffset | components/shift-content.tsx:40-46 | an offset of k weeks moves the shown week by exactly 7k days |
| ShiftContent.UserId | components/shift-content.tsx:38 | the user's id, or `""` without a user |
| ShiftContent.StoredKind | components/shift-content.tsx:50-55 | the kind of a stored shift of the user on the date, none exactly when none is stored |
| ShiftContent.ShiftPage.constructor | components/shift-content.tsx:33-50 | week offset 0, today selected, the stored kind picked, not saved, not saving |
| ShiftContent.ShiftPage.MoveWeek | components/shift-content.tsx:97-107 | the arrows move the week offset by one and change nothing else |
| ShiftContent.ShiftPage.Sync | components/shift-content.tsx:52-58 | the sync memo picks the stored kind of the selected date and clears `saved`, and changes nothing else |
| ShiftContent.ShiftPage.SelectDate | components/shift-content.tsx:48-58 | selecting another date selects it, picks that date's stored kind and clears `saved`; selecting the date already selected changes nothing else |
| ShiftContent.ShiftPage.PickShift | components/shift-content.tsx:171 | a kind button picks that kind |
| ShiftContent.ShiftPage.HandleSave | components/shift-content.tsx:60-72 | no kind or no user: nothing changes; otherwise the pair is upserted, `saved` becomes true only on success, `saving` ends false, and the stored kind is the one picked; the task and profile tables and caches are untouched, and the shifts cache is refetched only after an accepted upsert |
| LoginPage.ValidationError | app/login/page.tsx:33-46 | the first failing check in the order e-mail, password (fewer than 6 UTF-16 units), sign-up name blank after trimming; none exactly when all pass |
| LoginPage.SignInErrorMessage | app/login/page.tsx:74-80 | "Invalid login credentials" becomes the Japanese message; any other message passes through |
| LoginPage.LoginForm.constructor | app/login/page.tsx:18-25 | sign-in mode, empty fields, role 夫, no error, not loading, no call made |
| LoginPage.LoginForm.Edit | app/login/page.tsx:159-195 | typing sets the fields and nothing else |
| LoginPage.LoginForm.ToggleMode | app/login/page.tsx:214-217 | switching mode flips it and clears the error |
| LoginPage.LoginForm.HandleSubmit | app/login/page.tsx:27-89 | a failed check shows its message and makes no call; otherwise one call is made, a sign-up with the trimmed name, and its error is shown (a sign-in error translated); `loading` is false on every exit; every call ever made passed the checks |

## Left out

- The Supabase client, the authentication service and SQL are not modelled. Each call is reduced to its effect on the tables, with the outcome and the new row's id as parameters.
- The `order(...)` clauses of the three fetchers are not modelled. The tables are kept in insertion order, and the cache order is the table order.
- SWR request deduplication, background revalidation and concurrent invalidations are not modelled. A fetch is never rejected, and `globalMutate` refetches at once.
- The `onAuthStateChange` subscription (lib/store.tsx:104-109) is not modelled; it is asynchronous event plumbing. `ResolveSession` and `Logout` cover the two session changes the store makes.
- Store.AppProvider.Logout: a failing `signOut()` and the `window.location` redirect are not modelled.
- `router.push` / `router.refresh` after sign-in are not modelled; they are recorded as the `redirected` flag. The `emailRedirectTo` option of sign-up is not modelled either.
- The 2-second `setTimeout` that clears `saved` on the shift page is a timer and is not modelled.
- `toISOString()` and its time zone, and the Date locale arithmetic, are not modelled. The shift page works on day numbers; date strings are taken as given.
- The dashboard progress-bar percentage (components/dashboard-content.tsx:151) is floating point and is not modelled. `formatDate` and the week-header text are display only.
- JSX, styling, icons other than the SHIFT_TYPES emoji, components/app-shell.tsx and app/layout.tsx are not modelled.
- TaskModal.DurationOf: a duration text with no leading digits (such as `.5`) gives `NaN` in the source, and `NaN` is sent as a defined value. JSON turns it into `null`, so an edit clears the stored duration and an insert stores none. The model treats it as absent, so on an edit it keeps the stored duration.
- Text.ParseInt: results are unbounded integers; the loss of precision past 2^53 and `Infinity` for very long digit runs are not modelled.
- Text.IntToString: the exponent form `toString` uses for magnitudes of 10^21 and above is not modelled, so Text.ParseIntOfIntToString is stated for the plain decimal form only.
- ShiftContent.ShiftPage.Sync: React re-runs the memo when the selected date string, the user id or `getShift` changes. The model runs it on a date change (SelectDate) and after an accepted save's refetch (HandleSave), before `setSaved(true)`, the order in which React flushes the refetch's render ahead of the awaiting handler. Re-runs caused by a sign-in change or by a refetch started elsewhere are not modelled.
- Store.FetchTasks: the source casts a NULL `category` or `frequency` as it is, and turns only a NULL `duration_minutes` into `undefined`. The model reads all three NULLs as absent fields, which is how every reader of a task treats them.
- Remote.UpdateTaskRows: an update or delete whose id matches no row succeeds and changes nothing. This follows the code; no not-found error is raised.
- LoginPage.LoginForm.HandleSubmit: a call to the authentication service that throws, rather than answering with an error, is not modelled.
- TaskModal.TaskDialog.HandleSubmit: closing the dialog is the `open` flag; the parent's `onOpenChange` callback is not modelled.
