# Teammatic client-side state sync, modelled in Dafny

Teammatic is a task and project tracker: a Next.js app with a zustand task store and
project store, a REST route for tasks backed by Prisma, a thin `fetch` service, and
React dialogs that validate a form, call the store or the service, and publish the
outcome. This project models the part of it that keeps client state in step with the
server, with every network, database and clock call replaced by an explicit input:

- `TaskStore` (`src/stores/taskStore.ts`): a class holding `tasks`, `selectedTask` and
  `isTaskModalOpen`. Its actions apply pure sequence functions: append, rebuild by id
  through the `Task` constructor, and remove by id.
- `ProjectStore` (`src/stores/projectStore.ts`): a class with projects, optional nested
  collections, a selection and the `isLoading`/`error` flags.
  - Each zustand `set` is one `Set`/`Enter`/`Fail`/`Leave` step, and each step appends
    the published state to a ghost log. The log lets "loading on entry, not loading on
    every exit" be stated over everything a subscriber sees.
  - Every action records the HTTP request it sends.
  - `Completion` says whether the action returned or rethrew.
- `TaskModel` (`src/models/task.ts`): the `Task` record, the constructor's defaults,
  `update`, and the `toJSON`/`fromJSON` round trip.
  - Dates go through `Dates`, a concrete model of the ECMAScript Date Time String
    Format `YYYY-MM-DDTHH:mm:ss.sssZ` (and `±YYYYYY` years) over calendar fields, with
    its own round-trip proofs.
  - Metadata goes through an abstract codec given as a parameter.
- `TaskRoute` (`src/app/api/tasks/route.ts`): the zod `taskSchema` as a predicate over a
  JSON value, a parser proved equivalent to it, and `POST`/`GET` as functions from the
  request body and the database outcome to a response. `orderBy: updatedAt desc` is a
  proved insertion sort.
- `TaskService` (`src/services/taskService.ts`): the response to result mapping with its
  error-message fallbacks, `dueDate`/`createdAt`/`updatedAt` normalisation, and the
  outgoing request bodies. Lemmas connect the client to the route: what the route sends
  is what the client reads back.
- `TaskList` (`src/components/features/TaskList.tsx`): the filter/search projection and
  `loadTasks`.
- `TaskModal`, `TaskCard`, `CreateProjectDialog`, `CreateCollectionDialog`: the submit
  and delete flows as classes over their React state.
  - Each class keeps a ghost `busyLog` of the values it gave `isSubmitting` or
    `isDeleting`.
  - Each flow validates before any call, touches the store only after success, and
    ends not busy.

Shared modules: `Wrappers` (Option, Result), `Text` (ASCII lower-casing, JavaScript
`trim`, `includes`), `Json`, `Http` (the outcome types that stand for `fetch` and
Prisma), `Seqs` (an order-preserving filter and its lemmas).

Time is the `now: Instant` parameter of every operation that reads the clock. An
`Instant` is a record of calendar fields rather than an integer count of milliseconds,
so the ISO text format can be written and parsed exactly.

## Model

| member | source | states |
|---|---|---|
| TaskStore.TaskStore.constructor | src/stores/taskStore.ts:16-19 | the store starts with no tasks, no selected task and the modal closed |
| TaskStore.TaskStore.SetTasks | src/stores/taskStore.ts:21 | `tasks` becomes exactly the given list; selection and modal flag unchanged |
| TaskStore.TaskStore.AddTask | src/stores/taskStore.ts:23-26 | `tasks` is the old list with the task appended, nothing else changes, and id uniqueness is kept when the new id is fresh |
| TaskStore.AppendUniqueIff | src/stores/taskStore.ts:23-26 | appending keeps ids unique if and only if the new id is not already in the list |
| TaskStore.UpdateMatching | src/stores/taskStore.ts:28-35 | same length; each task with the id becomes the updated task, and every other position is unchanged |
| TaskStore.RebuiltIsUpdated | src/stores/taskStore.ts:32 | rebuilding through the constructor from the spread old task, data and `updatedAt: new Date()` equals `update` with `updatedAt = now` |
| TaskStore.TaskStore.UpdateTask | src/stores/taskStore.ts:28-35 | `tasks` becomes the id-matched rebuild of the old list, the other fields are unchanged, and uniqueness is kept when `data` carries no id or the same id |
| TaskStore.UpdateAbsentId | src/stores/taskStore.ts:30-34 | updating an id that is not in the list leaves the list unchanged |
| TaskStore.UpdateKeepsUnique | src/stores/taskStore.ts:30-34 | unique ids stay unique when `data` carries no id or the same id |
| TaskStore.Removed | src/stores/taskStore.ts:37-40 | the result holds no task with the id, every kept task comes from the list, and every task with another id is kept |
| TaskStore.RemovedKeepsOrder | src/stores/taskStore.ts:37-40 | the kept tasks are read from strictly increasing positions of the old list, in order |
| TaskStore.RemovedKeepsUnique | src/stores/taskStore.ts:37-40 | deleting keeps unique ids unique |
| TaskStore.RemovedExactlyOne | src/stores/taskStore.ts:37-40 | with unique ids, deleting an id that is present shortens the list by exactly one |
| TaskStore.TaskStore.DeleteTask | src/stores/taskStore.ts:37-40 | `tasks` becomes the filtered list with no task of that id, while `selectedTask` and `isTaskModalOpen` stay untouched |
| TaskStore.TaskStore.SelectTask | src/stores/taskStore.ts:42 | only `selectedTask` changes |
| TaskStore.TaskStore.SetTaskModalOpen | src/stores/taskStore.ts:44 | only `isTaskModalOpen` changes |
| TaskModel.ParseStatus | src/models/task.ts:1-6 | a parsed status prints back as the same text |
| TaskModel.StatusNameRoundTrip | src/models/task.ts:1-6 | every status parses back from its name |
| TaskModel.ParsePriority | src/models/task.ts:1-6 | a parsed priority prints back as the same text |
| TaskModel.PriorityNameRoundTrip | src/models/task.ts:1-6 | every priority parses back from its name |
| TaskModel.ConstructDefaults | src/models/task.ts:19-29 | with no data: id and title '', status TODO, priority MEDIUM, no description, due date or metadata, and both stamps `now` |
| TaskModel.ConstructWhole | src/models/task.ts:19-29 | constructing from all of a task's own fields gives that task back |
| TaskModel.ConstructSpreadIsAssign | src/models/task.ts:19-29 | constructing from a task spread under a patch is the task with the patch's supplied fields assigned |
| TaskModel.UpdatedFields | src/models/task.ts:55-60 | `update` assigns exactly the supplied fields, sets `updatedAt` to `now` even if `data` had one, and leaves unsupplied fields unchanged |
| TaskModel.UpdatedIdempotent | src/models/task.ts:55-60 | an empty update only restamps, and repeating an update equals the last one alone |
| TaskModel.TaskEntity.constructor | src/models/task.ts:19-29 | the new entity holds the constructed task |
| TaskModel.TaskEntity.Update | src/models/task.ts:55-60 | the entity's fields become the updated task |
| TaskModel.ToJson | src/models/task.ts:41-53 | succeeds exactly when every date names a day; both stamps are always emitted, `dueDate` and `metadata` only when present, and an invalid date throws 'Invalid time value' |
| TaskModel.FromJson | src/models/task.ts:31-39 | `dueDate` and `metadata` are absent exactly when the JSON field is falsy, and it fails only when present metadata does not decode |
| TaskModel.ParseIsoOf | src/models/task.ts:34-36 | `new Date` of the ISO string of a valid date gives that date back |
| TaskModel.JsonRoundTrip | src/models/task.ts:31-53 | with valid dates and a metadata codec that reads this task's metadata back, `fromJSON(toJSON(t))` is `t` field by field |
| Dates.IsoRoundTrip | src/models/task.ts:48-50 | parsing the ISO string of any instant gives that instant back |
| Dates.PadRoundTrip | src/models/task.ts:48-50 | a zero-padded field reads back as its number |
| Dates.YearRoundTrip | src/models/task.ts:48-50 | a four-digit or signed six-digit year reads back as itself |
| Dates.DateFieldsRoundTrip | src/models/task.ts:48-50 | the `YYYY-MM-DD` part reads back as year, month and day |
| Dates.TimeFieldsRoundTrip | src/models/task.ts:48-50 | the `THH:mm:ss.sssZ` part reads back as hour, minute, second and millisecond |
| Dates.MakeDate | src/services/taskService.ts:22-24 | a parsed field set is a date exactly when it names a real calendar moment |
| Dates.StartOfDay | src/components/features/TaskModal.tsx:51 | midnight of the same calendar day, never after the instant |
| Dates.DateTextParsesToStartOfDay | src/components/features/TaskModal.tsx:51 | `new Date('YYYY-MM-DD')` gives midnight UTC of that day |
| Dates.BeforeFirst | src/components/features/TaskModal.tsx:40 | the longest prefix without the separator, which is followed by the separator when shorter than the text |
| Dates.DatePartOfIsoString | src/components/features/TaskModal.tsx:40 | `toISOString().split('T')[0]` is the `YYYY-MM-DD` text of the date |
| Dates.BeforeTotal | src/app/api/tasks/route.ts:18-20 | any two instants are ordered one way or the other, or equal |
| Dates.BeforeTransitive | src/app/api/tasks/route.ts:18-20 | the instant order is transitive |
| TaskRoute.ParseTask | src/app/api/tasks/route.ts:7-14 | parses exactly the bodies the schema accepts; title, status, priority and the presence of optional fields read back from the body |
| TaskRoute.FromMeta | src/app/api/tasks/route.ts:13 | each metadata value written as JSON is a schema-valid value that reads back unchanged |
| TaskRoute.MetadataJson | src/app/api/tasks/route.ts:13 | a metadata map written as JSON has the same keys and every value reads back |
| TaskRoute.ParseValidTaskJson | src/app/api/tasks/route.ts:7-14 | every valid task written as JSON is accepted and parses back to itself |
| TaskRoute.ToCreateData | src/app/api/tasks/route.ts:36-41 | the create data copies the validated fields, with `dueDate` converted when truthy and null otherwise |
| TaskRoute.Post | src/app/api/tasks/route.ts:31-58 | creates only when the body parses and is accepted; otherwise 400 'Invalid task data' (or 500 for an unreadable body); 201 with the row, or 500 'Failed to create task' when the database fails |
| TaskRoute.InsertByUpdate | src/app/api/tasks/route.ts:18-20 | inserting into a newest-first list keeps it newest-first and adds exactly that row |
| TaskRoute.NewestFirstOrder | src/app/api/tasks/route.ts:18-20 | the ordered rows are newest-first by `updatedAt` and a permutation of the table |
| TaskRoute.Get | src/app/api/tasks/route.ts:16-29 | 200 with the table's rows newest-first, or 500 'Failed to fetch tasks' on failure |
| TaskService.ErrorMessage | src/services/taskService.ts:16-17 | the payload's truthy `error` field, otherwise the operation's default, even when the body is unreadable |
| TaskService.Settle | src/services/taskService.ts:15-19 | ok only for a success with a readable body; a non-ok status throws the payload's error or the fallback, and a network failure rethrows its reason |
| TaskService.StatusFailureMessage | src/services/taskService.ts:15-17 | a non-ok response always throws a non-empty message |
| TaskService.Normalize | src/services/taskService.ts:20-25 | `dueDate` is parsed exactly when truthy, both stamps are always parsed, and every other field passes through |
| TaskService.NormalizeAll | src/services/taskService.ts:20 | same length and order as the server's list, each element normalised |
| TaskService.NormalizeRowAsSent | src/services/taskService.ts:20-25 | a database row sent as JSON and normalised by the client is the row as a task |
| TaskService.OtherFields | src/services/taskService.ts:34-37 | the body carries each non-date field exactly when the data supplies it |
| TaskService.RequestBody | src/services/taskService.ts:34-37 | fails only for an invalid due date; carries `dueDate` exactly when present, as its ISO string |
| TaskService.BodyField | src/services/taskService.ts:34-37 | a non-date field is in the body exactly when the data supplies it, with its value |
| TaskService.SentDueDateRoundTrip | src/services/taskService.ts:36 | the sent `dueDate` string parses back to the date that was sent |
| TaskService.TaskUrl | src/services/taskService.ts:55 | '/api/tasks/' followed by the id |
| TaskService.FetchTasks | src/services/taskService.ts:13-26 | one GET; ok exactly for a readable success, holding the normalised list, otherwise the settled message |
| TaskService.SendTask | src/services/taskService.ts:28-78 | nothing is sent when the body cannot be built; otherwise one request with the body, and the result is the normalised reply or the settled message |
| TaskService.CreateTask | src/services/taskService.ts:28-52 | a POST to '/api/tasks' with 'Failed to create task' as the fallback |
| TaskService.UpdateTask | src/services/taskService.ts:54-78 | a PATCH to '/api/tasks/' + id with 'Failed to update task' as the fallback |
| TaskService.DeleteTask | src/services/taskService.ts:80-89 | a DELETE to '/api/tasks/' + id that returns nothing on success and the payload error or 'Failed to delete task' otherwise |
| TaskService.FetchAfterGet | src/services/taskService.ts:13-26 | fetching from a working GET yields the table's rows as tasks, newest first, as a permutation of the table |
| TaskService.FetchAfterFailedGet | src/services/taskService.ts:15-17 | a failing GET reaches the client as 'Failed to fetch tasks' |
| TaskService.CreateAgainstPost | src/services/taskService.ts:28-52 | against the route, a refused body surfaces as 'Invalid task data', a database failure as 'Failed to create task', and success as the created row |
| TaskList.FilteredIff | src/components/features/TaskList.tsx:39-46 | a task is shown if and only if it is in the list and matches the status filter, the priority filter and the search |
| TaskList.FilteredIsSubsequence | src/components/features/TaskList.tsx:39 | the shown tasks are read from strictly increasing positions of the list |
| TaskList.MatchesSearchIff | src/components/features/TaskList.tsx:42-43 | matches if and only if the lower-cased query occurs in the lower-cased title, or in the lower-cased description when there is one |
| TaskList.SearchIgnoresQueryCase | src/components/features/TaskList.tsx:42-43 | lower-casing the query first changes nothing |
| TaskList.NoFilterShowsAll | src/components/features/TaskList.tsx:40-43 | 'ALL', 'ALL' and an empty query show the whole list unchanged |
| TaskList.FilteredIdempotent | src/components/features/TaskList.tsx:39-46 | filtering the shown list again shows the same list |
| TaskList.TaskListView.constructor | src/components/features/TaskList.tsx:15-20 | filters 'ALL', empty query, loading, no error |
| TaskList.TaskListView.LoadTasks | src/components/features/TaskList.tsx:22-37 | on success the store holds the fetched list and the error is cleared; on failure the list is kept and the error is 'Failed to load tasks. Please try again later.'; not loading on both paths |
| Text.ToLower | src/components/features/TaskList.tsx:42-43 | same length, each character lower-cased |
| Text.ToLowerIdempotent | src/components/features/TaskList.tsx:42-43 | lower-casing twice equals lower-casing once |
| Text.IncludesIffOccurs | src/components/features/TaskList.tsx:42-43 | `includes` holds if and only if the query occurs at some position |
| Text.IncludesEmpty | src/components/features/TaskList.tsx:42-43 | every text includes the empty query |
| Text.Trim | src/components/dialogs/CreateProjectDialog.tsx:20 | no longer than the input; neither end is whitespace |
| Text.TrimIsSlice | src/components/dialogs/CreateProjectDialog.tsx:20 | the trimmed text is a slice of the input with only whitespace cut on either side |
| Text.TrimEmptyIff | src/components/dialogs/CreateProjectDialog.tsx:20 | the trimmed text is empty if and only if the input is all whitespace |
| Text.TrimIdempotent | src/components/dialogs/CreateProjectDialog.tsx:29 | trimming twice equals trimming once |
| Text.TrimmedOrAbsent | src/components/dialogs/CreateProjectDialog.tsx:29 | absent exactly when the text is all whitespace, otherwise the non-empty trimmed text |
| Seqs.FilterConcat | src/components/features/TaskList.tsx:39 | filtering distributes over concatenation |
| Seqs.FilterKeepsAll | src/components/features/TaskList.tsx:40-43 | a filter every element passes returns the list unchanged |
| ProjectStore.ProjectStore.constructor | src/stores/projectStore.ts:46-52 | no projects, not loading, no error, no selection, both dialogs closed |
| ProjectStore.ThreeStepSpan | src/stores/projectStore.ts:54-69 | the entry, outcome and `finally` states form one loading span: loading with the error cleared first, loading until the last, not loading at the end |
| ProjectStore.FailureOf | src/stores/projectStore.ts:57-61 | an action needing the body fails unless the reply is a success with a readable body |
| ProjectStore.StatusFailureOf | src/stores/projectStore.ts:104-106 | an action needing only the status fails unless the reply is a success |
| ProjectStore.Completed | src/stores/projectStore.ts:89-93 | the action returns exactly when there was no failure, and rethrows otherwise |
| ProjectStore.ProjectStore.FetchProjects | src/stores/projectStore.ts:54-69 | one loading span; on success `projects` is the response, on failure the error is 'Failed to fetch projects' and the projects are kept; it never rethrows |
| ProjectStore.ProjectStore.CreateProject | src/stores/projectStore.ts:71-97 | one loading span and one POST; on success the project is appended, on failure 'Failed to create project' is recorded, the projects are kept and it rethrows |
| ProjectStore.RemovedProject | src/stores/projectStore.ts:111 | no project with the id is left, every kept project comes from the list, and every project with another id is kept |
| ProjectStore.RemovedProjectKeepsOrder | src/stores/projectStore.ts:111 | the kept projects are in their old relative order |
| ProjectStore.SelectionAfterDelete | src/stores/projectStore.ts:112 | the selection becomes null exactly when it equalled the deleted id, and is otherwise unchanged |
| ProjectStore.DeleteKeepsSelectionListed | src/stores/projectStore.ts:110-113 | a selection naming a listed project still names a listed project, or none, after the delete |
| ProjectStore.ProjectStore.DeleteProject | src/stores/projectStore.ts:99-121 | one loading span and one DELETE; on success the project is removed and the selection cleared if it was that project; on failure the list and selection are kept, 'Failed to delete project' is recorded and it rethrows |
| ProjectStore.AddedCollection | src/stores/projectStore.ts:140-147 | the project count is unchanged |
| ProjectStore.AddedCollectionAt | src/stores/projectStore.ts:140-147 | each project with the id gets the collection appended to its collections (absent read as empty); every other project is unchanged |
| ProjectStore.ProjectStore.CreateCollection | src/stores/projectStore.ts:123-156 | one loading span and one POST; on success the collection is added to the matching project, on failure 'Failed to create collection' is recorded and it rethrows |
| ProjectStore.WithoutCollection | src/stores/projectStore.ts:170-173 | absent collections stay absent; otherwise no collection with the id is left and every other collection is kept |
| ProjectStore.RemovedCollection | src/stores/projectStore.ts:169-174 | same projects in the same order, each with the collection removed |
| ProjectStore.WithoutFreshCollection | src/stores/projectStore.ts:170-173 | removing a collection id a list lacks leaves it unchanged, and removing a just-appended fresh one undoes the append |
| ProjectStore.UndoOne | src/stores/projectStore.ts:140-173 | removing a fresh collection from one project it was added to restores that project |
| ProjectStore.RemoveUndoesAdd | src/stores/projectStore.ts:140-173 | deleting a freshly created collection restores the projects as they were before it was created |
| ProjectStore.ProjectStore.DeleteCollection | src/stores/projectStore.ts:158-182 | one loading span and one DELETE; on success the collection is removed from every project, on failure 'Failed to delete collection' is recorded and it rethrows |
| ProjectStore.ProjectStore.SetSelectedProject | src/stores/projectStore.ts:184 | only the selection changes |
| ProjectStore.ProjectStore.SetCreateProjectModalOpen | src/stores/projectStore.ts:185 | only the create-project dialog flag changes |
| ProjectStore.ProjectStore.SetCreateCollectionModalOpen | src/stores/projectStore.ts:186 | only the create-collection dialog flag changes |
| TaskModal.TaskData | src/components/features/TaskModal.tsx:47-52 | the patch carries the form's title, description, status and priority; `dueDate` is a parsed date exactly when the form's text is non-empty |
| TaskModal.DatePart | src/components/features/TaskModal.tsx:40 | the `YYYY-MM-DD` text of a valid date; `toISOString` throws for an invalid one |
| TaskModal.DefaultValues | src/components/features/TaskModal.tsx:35-41 | with no selection: '', '', 'TODO', 'MEDIUM', ''; otherwise the task's values with its due date's day text, '' without one, and an error for an invalid date |
| TaskModal.UnchangedEditKeepsDay | src/components/features/TaskModal.tsx:35-52 | a form that still holds `DefaultValues(Some(t))` submits the task's title, status and priority, and moves the due date to midnight of its day |
| TaskModal.FormBodyPassesTaskSchema | src/components/features/TaskModal.tsx:18-24 | the body a valid form sends passes the route's `taskSchema` and reads back the same title, status and priority |
| TaskModal.TaskModalView.constructor | src/components/features/TaskModal.tsx:29-31 | not submitting, no error |
| TaskModal.TaskModalView.Save | src/components/features/TaskModal.tsx:44-69 | busy then not busy; on success the store is updated by the selected id or appended and the modal closes; on failure the error is 'Failed to save task. Please try again.' and the store is untouched |
| TaskModal.TaskModalView.Submit | src/components/features/TaskModal.tsx:44-78 | starts idle, as the disabled submit button ensures (lines 170-174), and ends idle; an invalid form changes nothing and sends nothing; a valid one sends the update (with a selection) or create call and then behaves as `Save` |
| TaskCard.TaskCardView.constructor | src/components/features/TaskCard.tsx:16-18 | not deleting, no error |
| TaskCard.TaskCardView.HandleEdit | src/components/features/TaskCard.tsx:20-23 | selects this task and opens the modal; the list is unchanged |
| TaskCard.TaskCardView.HandleDelete | src/components/features/TaskCard.tsx:25-40 | a declined confirmation changes nothing; otherwise one DELETE, busy then not busy, and the task is removed from the store only after the service succeeds, else the error is 'Failed to delete task' |
| CreateProjectDialog.CreateProjectDialogView.constructor | src/components/dialogs/CreateProjectDialog.tsx:12-16 | empty fields, not submitting, no error |
| CreateProjectDialog.CreateProjectDialogView.Save | src/components/dialogs/CreateProjectDialog.tsx:25-37 | busy then not busy; one createProject call; on success the dialog closes and the fields reset, on failure the error is 'Failed to create project. Please try again.' and the fields are kept |
| CreateProjectDialog.CreateProjectDialogView.HandleSubmit | src/components/dialogs/CreateProjectDialog.tsx:18-38 | a blank trimmed name sets 'Project name is required' with no store call; otherwise it saves the trimmed name and the trimmed description or absent |
| CreateCollectionDialog.CreateCollectionDialogView.constructor | src/components/dialogs/CreateCollectionDialog.tsx:12-22 | empty fields, not submitting, no error |
| CreateCollectionDialog.CreateCollectionDialogView.Save | src/components/dialogs/CreateCollectionDialog.tsx:35-47 | busy then not busy; one createCollection call; on success the dialog closes and the fields reset, on failure the error is 'Failed to create collection. Please try again.' |
| CreateCollectionDialog.CreateCollectionDialogView.HandleSubmit | src/components/dialogs/CreateCollectionDialog.tsx:24-48 | with no selected project 'No project selected' (checked first), a blank name 'Collection name is required', neither with a store call; otherwise saves with the selected project, the trimmed name and the trimmed description or absent |

## Left out

- Network, database and clock. `fetch`, `response.json()`, Prisma calls and
  `new Date()` are parameters: HTTP and database outcomes, `Parsed` bodies, and a
  `now: Instant`. `console.error` is not modelled.
- Time representation: an `Instant` is a record of calendar fields, not a millisecond
  count. Date arithmetic is not needed by the code, and the ISO text is modelled
  exactly.
- Dates.ParseDate: accepts only the `toISOString` format and a bare `YYYY-MM-DD` date.
  Other forms that `new Date` accepts, the `T24:00` end-of-day form, and the
  ±8.64e15 ms range limit are not modelled.
- Text.ToLower: ASCII only. Unicode case mapping is not modelled.
- JSON fields of unexpected types are not modelled. Outside the route's schema, a field
  the code reads as a string is a string in the model.
- zod internals: the 400 response's `details` list, unknown-key stripping, and zod's
  error format are not modelled. `taskSchema` and `taskFormSchema` are explicit
  predicates.
- The `JSON.stringify`/`JSON.parse` handling of metadata in `src/models/task.ts` is an
  abstract codec parameter. The round trip assumes only that the codec reads back the
  metadata of the task at hand, because `JSON.stringify`/`JSON.parse` do not read back
  every number (-0, NaN and the infinities come back changed).
- TaskModel.Spread, TaskModel.Assign: a key present with the value `undefined` on a
  field every task has (`{ title: undefined }`) is treated like an absent key. JavaScript
  copies the `undefined`, after which the constructor applies its default and
  `Object.assign` stores `undefined`. No caller in the modelled code passes such a key.
- `new Date(null)`: JavaScript gives the epoch for a stamp that is JSON `null`. The model
  reads `null` like an absent field, which gives an invalid date.
- Prisma's order among rows with equal `updatedAt` is unspecified. The model proves
  only newest-first order and a permutation.
- Async interleaving: each action runs atomically from entry to completion. Late
  resolution of concurrent actions is not modelled.
- React and zustand internals: rendering, subscriptions, hooks, and the
  react-hook-form state. Published states are a ghost log.
- `getPriorityColor`/`getStatusColor`, layout and the sidebar are presentation only.
- `src/services/projectService.ts`, `src/app/api/collections/route.ts` and
  `src/app/api/tasks/[id]/route.ts` are not part of this model.
- TaskModal.DefaultValues: react-hook-form reads `defaultValues` once, when the form
  first mounts (src/components/features/TaskModal.tsx:33-42). The modal is mounted once
  by the task list (src/components/features/TaskList.tsx:132) and never re-fills the
  form when the selection changes. The model has no form state across renders:
  `Submit` takes the form's current values as a parameter. So an Edit opened after mount
  shows the values from mount time, not `DefaultValues(Some(t))`.
- TaskModal.TaskModalView.Save: after a save the selection stays as it was, as in the
  code. Clearing it on close is left to the caller and not modelled.
- ProjectStore.AddedCollection: its own contract states only the length. Its per-project
  effect is stated by ProjectStore.AddedCollectionAt.
