# Task board client — a Dafny model of its decision logic

The repository is the browser client of a Kanban-style task tracker: a page that lists
and filters all tasks, a page per board that shows the board's tasks in three status
columns, create and edit forms that keep a draft in a redux slice, and a header that
underlines the current section. All of it is a thin layer over a REST API. What can be
modelled is the pure derivation code in those components, plus the few effects that push
values into the draft store or into component state.

The model is split by component:

- `Wrappers` (Option), `Seqs` (JavaScript's `filter` and `find`, once, with their laws),
  `Text` (ASCII `toLowerCase`, `includes`, `startsWith`) and `Api` (the `User`, `Task`,
  `NewTask` and `Board` records) are shared.
- `TaskFormSlice`: the draft record, the `updateForm`/`resetForm` reducers and a
  `FormStore` class standing for the redux store that components dispatch into.
- `TasksPage`: the four-criterion task filter.
- `BoardPage`: board lookup by route id, the board's tasks, the three status columns, and
  a `BoardView` class whose `openTask` field the "open this task" hint updates.
- `AssigneeLookup`: the name-to-user resolution both forms perform on submit.
- `EditTaskForm` and `CreateTaskForm`: the submit payloads as functions, and classes
  `EditForm`/`CreateForm` holding react-hook-form's values beside a reference to the
  store, whose methods are the prefill and mount effects, the toggle buttons, the board
  select and the submit.
- `Header`: the two path predicates.

Modelling choices:

- Status and priority stay strings. The board columns use `To do`/`In progress`/`Done`,
  the edit form's buttons `Backlog`/`InProgress`/`Done`, and the create form and the
  draft's initial value `TODO`/`IN_PROGRESS`/`DONE`. `CreateTaskForm.StatusVocabulariesDisagree`
  proves the consequence: a task created with the create form, or with the initial draft,
  appears in no board column, and of the edit form's statuses only `Done` does.
  The board view is meant to put each of the board's tasks in exactly one status
  column. The code does not do that, and the model follows the code:
  `BoardPage.ColumnsCover` proves the columns hold all board tasks only when every
  status is one of the three column strings.
- A task's assignee is optional, because the task list reads it with `?.`. A user whose
  `fullName` itself is missing cannot be represented. Under the filter it behaves like an
  empty name, since a non-empty search never occurs in an empty string.
- The board filter `number | ''` is `AnyBoard | OnBoard(id)`. JavaScript truthiness makes
  both `''` and `0` impose no constraint, and the model says so (`BoardFilterSet`).
- An `openTaskId` hint of `0` is falsy, so it never opens a task.
- Editing a task whose assignee is missing throws a `TypeError` in the prefill effect,
  before anything is dispatched. `EditForm.Prefill` returns `false` and changes nothing.
- The create form's mount effect dispatches `resetForm` and then calls `reset(formState)`
  with the draft read at render time, which is the draft from before the reset.
  `CreateForm.Mount` states that: the store becomes the initial record, while the form
  values become the old draft. The header's instance of the form
  (client/src/components/Header.tsx:76) stays mounted while closed, so for it `Mount`
  runs once, at start-up, and not each time the form opens. After a successful create,
  its form values keep the submitted data while the draft is reset (`CreateForm.Submit`
  changes only the store). Only the task list's instance
  (client/src/pages/TasksPage.tsx:242-244) is mounted each time it opens.
- The board page's hint effect depends on `boardTasks`, which every render rebuilds, so
  it runs after every render, and the hint stays in the location state. `ApplyOpenTaskHint`
  is one such run. `CloseThenRender` and the lemmas `HintReopensAfterClose` and
  `HintOverridesClick` show what follows: the hinted task cannot be closed or replaced
  while the page stays at that location (see Findings).
- I/O becomes parameters. The loaded users, tasks and boards are `Option<seq<…>>`
  (`None` while not loaded). Whether the server accepted a create or update is a
  parameter `succeeded` of `Submit`.

## Model

| member | source | states |
|---|---|---|
| `Seqs.Filter` | client/src/pages/TasksPage.tsx:34-42 | the result is a subsequence of the input; an element is in it iff it is in the input and satisfies the predicate |
| `Seqs.FilterCounts` | client/src/pages/TasksPage.tsx:34-42 | each element satisfying the predicate occurs in the result as often as in the input; every other element does not occur |
| `Seqs.FilterAllTrue` | client/src/pages/TasksPage.tsx:35-38 | a predicate true of every element keeps the whole list unchanged |
| `Seqs.FilterIdempotent` | client/src/pages/TasksPage.tsx:32-43 | filtering twice with one predicate equals filtering once |
| `Seqs.FilterCongruence` | client/src/pages/TasksPage.tsx:37-39 | predicates that agree on the list's elements give the same result |
| `Seqs.FilterConjunction` | client/src/pages/BoardPage.tsx:43-45 | filtering by p and then by q equals one filter by their conjunction |
| `Seqs.Find` | client/src/pages/BoardPage.tsx:18 | no result iff no element matches; a result is a matching element at the first matching index |
| `Seqs.FindFirst` | client/src/pages/BoardPage.tsx:23 | when index i is the first match, the result is exactly the element at i |
| `Text.Includes` | client/src/pages/TasksPage.tsx:37 | true iff the needle occurs in the haystack at some index |
| `Text.LowerKeepsLength` | client/src/pages/TasksPage.tsx:37 | lower-casing keeps the length, so a search is truthy iff its lower-cased form is non-empty |
| `TaskFormSlice.UpdateForm` | client/src/store/taskFormSlice.ts:25-27 | every field present in the payload takes the payload's value; every absent field keeps the old value |
| `TaskFormSlice.UpdateEmptyIsIdentity` | client/src/store/taskFormSlice.ts:26 | an empty payload leaves the draft unchanged |
| `TaskFormSlice.UpdateIdempotent` | client/src/store/taskFormSlice.ts:26 | applying a payload twice equals applying it once |
| `TaskFormSlice.UpdateCompose` | client/src/store/taskFormSlice.ts:26 | two successive updates equal one update with their merge, the later payload winning on shared fields |
| `TaskFormSlice.UpdateFullPatch` | client/src/store/taskFormSlice.ts:25-27 | a payload naming all six fields yields the same draft whatever the prior draft |
| `TaskFormSlice.ResetForm` | client/src/store/taskFormSlice.ts:28-30 | `resetForm` returns the initial record whatever the draft was |
| `TaskFormSlice.ResetDiscardsDraft` | client/src/store/taskFormSlice.ts:12-30 | reset after any update yields the initial record (title, description, assignee empty, status TODO, priority LOW, board 0), on any prior draft |
| `TaskFormSlice.Reduce` | client/src/store/taskFormSlice.ts:21-32 | the slice reducer: a reset action gives the initial record, an update action gives the draft overlaid with its payload |
| `TaskFormSlice.FormStore.constructor` | client/src/store/taskFormSlice.ts:21-23 | a new store holds the initial record |
| `TaskFormSlice.FormStore.Dispatch` | client/src/store/taskFormSlice.ts:21-32 | the new draft is the reducer applied to the old draft and the action |
| `TasksPage.FilteredTasks` | client/src/pages/TasksPage.tsx:32-43 | not loaded gives the empty list; otherwise the result is a subsequence of the tasks, and a task is kept iff the status matches exactly, the board id matches exactly, the lower-cased title contains the lower-cased search, and the task has an assignee whose lower-cased name contains the lower-cased assignee search, each test applying only when its filter is truthy |
| `TasksPage.ShownWithMultiplicity` | client/src/pages/TasksPage.tsx:34-42 | a task that passes the filters is shown as often as it occurs in the loaded list; any other task is not shown |
| `TasksPage.UnsetShowsAll` | client/src/pages/TasksPage.tsx:35-38 | with every filter falsy (board `''` or `0`) the output equals the input |
| `TasksPage.FilteredTasksIdempotent` | client/src/pages/TasksPage.tsx:32-43 | filtering the output again with the same filters yields the same output |
| `TasksPage.SearchIgnoresCase` | client/src/pages/TasksPage.tsx:37-39 | title and assignee searches that lower-case alike give the same output |
| `TasksPage.AssigneeSearchHidesUnassigned` | client/src/pages/TasksPage.tsx:38-40 | with a non-empty assignee search, a task without an assignee is not shown |
| `TasksPage.StatusFilterScenario` | client/src/pages/TasksPage.tsx:35 | status filter "Done" over a Backlog task and a Done task keeps exactly the second |
| `BoardPage.RouteBoardId` | client/src/pages/BoardPage.tsx:18-19 | a missing route parameter is board id 0, a present one is its value |
| `BoardPage.SelectedBoard` | client/src/pages/BoardPage.tsx:18 | no boards loaded gives none; a selected board has the route id and is the first such board; none means no loaded board has the route id |
| `BoardPage.BoardTasks` | client/src/pages/BoardPage.tsx:19 | the order-preserving subsequence of the loaded tasks whose board id is the route id; empty when not loaded |
| `BoardPage.BoardTasksCounts` | client/src/pages/BoardPage.tsx:19 | no task is lost or duplicated: a task of the route's board appears as often as in the loaded list, any other task never |
| `BoardPage.Column` | client/src/pages/BoardPage.tsx:43-45 | a column is the order-preserving subsequence of the board tasks whose status is exactly the column's string |
| `BoardPage.ColumnCounts` | client/src/pages/BoardPage.tsx:43-45 | a task of the column's status appears in the column as often as among the board tasks, any other task never |
| `BoardPage.ColumnsDisjoint` | client/src/pages/BoardPage.tsx:43-45 | no task is in two of the three columns |
| `BoardPage.ColumnAccounting` | client/src/pages/BoardPage.tsx:43-45 | the three column lengths plus the number of board tasks with another status equal the number of board tasks |
| `BoardPage.ColumnsCover` | client/src/pages/BoardPage.tsx:43-45 | the column lengths sum to at most the board tasks, with equality iff every board task's status is one of the three column strings |
| `BoardPage.NotShown` | client/src/pages/BoardPage.tsx:19-45 | a task of another board, or whose status is none of the three strings, is in no column |
| `BoardPage.ColumnOfLoadedTasks` | client/src/pages/BoardPage.tsx:19-45 | a column equals one filter of the loaded tasks by board id and status together |
| `BoardPage.NextOpenTask` | client/src/pages/BoardPage.tsx:21-28 | a missing or zero hint, or a hint no board task has, keeps the open task; otherwise the open task becomes the first board task with the hinted id |
| `BoardPage.HintReopensAfterClose` | client/src/pages/BoardPage.tsx:21-28 | with the hint still set, a run of the effect after the open task was closed opens the hinted board task again |
| `BoardPage.HintOverridesClick` | client/src/pages/BoardPage.tsx:21-36 | with the hint still set, a run of the effect after a click on another task replaces that task by the hinted one |
| `BoardPage.NextOpenTaskOnce` | client/src/pages/BoardPage.tsx:21-28 | a hint used once: unspent, it acts as the effect does and becomes spent iff the board has the hinted task; spent, it changes nothing |
| `BoardPage.OnceHintOpens` | client/src/pages/BoardPage.tsx:21-28 | with a hint used once, the first run with the hinted task on the board opens that task and spends the hint |
| `BoardPage.SpentHintLeavesOpenTask` | client/src/pages/BoardPage.tsx:21-41 | with a spent hint, whatever is open — nothing after a close, or the task of a click — stays open through any number of further runs |
| `BoardPage.BoardView.CloseThenRender` | client/src/pages/BoardPage.tsx:21-41 | a close followed by the render it causes leaves open exactly what the hint selects from nothing open |
| `BoardPage.BoardView.constructor` | client/src/pages/BoardPage.tsx:16 | no task is open at first |
| `BoardPage.BoardView.ApplyOpenTaskHint` | client/src/pages/BoardPage.tsx:21-28 | the open task afterwards is the hint's outcome on the old open task |
| `BoardPage.BoardView.TaskClick` | client/src/pages/BoardPage.tsx:34-36 | the clicked task becomes the open task |
| `BoardPage.BoardView.Close` | client/src/pages/BoardPage.tsx:38-41 | no task is open afterwards |
| `AssigneeLookup.ResolveAssignee` | client/src/components/EditTaskForm.tsx:52-57 | the resolved user always carries the form's name; if a loaded user has that exact name, it is the first such user; if users are not loaded or none has it, it is the placeholder with id 0 and empty email and avatar |
| `EditTaskForm.Toggle` | client/src/components/EditTaskForm.tsx:151-153 | the result is empty or the button's value, and it is empty iff the button was already selected (or its value is empty) |
| `EditTaskForm.ToggleTwiceFromEmpty` | client/src/components/EditTaskForm.tsx:151-153 | pressing a button twice from nothing selected ends with nothing selected |
| `EditTaskForm.ToggleTwice` | client/src/components/EditTaskForm.tsx:151-153 | two presses of one button restore the selection iff it was that button or nothing |
| `EditTaskForm.PrefillPatch` | client/src/components/EditTaskForm.tsx:32-42 | the prefill payload exists iff the task has an assignee, and applying it to any draft yields the task's title, description, status, priority, assignee name and board id |
| `EditTaskForm.EditPayload` | client/src/components/EditTaskForm.tsx:51-64 | the request's id is the edited task's id, its other fields are the form data's, and its assignee is the resolved user, whose name is the form's assignee |
| `EditTaskForm.UntouchedSubmitRoundTrip` | client/src/components/EditTaskForm.tsx:32-64 | prefilling from a task and submitting untouched sends that task back, when its assignee's name resolves to that assignee |
| `EditTaskForm.EditForm.constructor` | client/src/components/EditTaskForm.tsx:20-23 | the form values start as the store's draft |
| `EditTaskForm.EditForm.Prefill` | client/src/components/EditTaskForm.tsx:32-49 | with an assignee, both the draft and the form values become the task's fields with the assignee's name; without one, nothing changes |
| `EditTaskForm.EditForm.PressStatus` | client/src/components/EditTaskForm.tsx:147-200 | the form value and the draft's status both become the toggle of the form's current status by the button; nothing else changes |
| `EditTaskForm.EditForm.PressPriority` | client/src/components/EditTaskForm.tsx:229-282 | the same for the priority |
| `EditTaskForm.EditForm.Submit` | client/src/components/EditTaskForm.tsx:51-71 | the request is the edit payload of the form values under the task's id; on success the draft is the initial record, otherwise unchanged |
| `CreateTaskForm.CreatePayload` | client/src/components/CreateTaskForm.tsx:33-38 | every field of the request is the form data's, except the assignee, which is the resolved user carrying the form's name |
| `CreateTaskForm.CreateAgreesWithEdit` | client/src/components/CreateTaskForm.tsx:33-38 | the create body with an id attached equals the edit payload of the same data |
| `CreateTaskForm.StatusVocabulariesDisagree` | client/src/components/CreateTaskForm.tsx:113-115 | a task with one of the create form's statuses, or the draft's initial one, is in no board column; of the edit form's statuses only "Done" is |
| `CreateTaskForm.CreateForm.constructor` | client/src/components/CreateTaskForm.tsx:19-22 | the form values start as the store's draft |
| `CreateTaskForm.CreateForm.Mount` | client/src/components/CreateTaskForm.tsx:28-31 | the draft becomes the initial record; the form values become the draft as it was before the reset |
| `CreateTaskForm.CreateForm.ChooseBoard` | client/src/components/CreateTaskForm.tsx:170-173 | the chosen numeric board id is stored in both the form values and the draft; nothing else changes |
| `CreateTaskForm.CreateForm.Submit` | client/src/components/CreateTaskForm.tsx:33-46 | the request is the create payload of the form values; on success the draft is the initial record, otherwise unchanged |
| `Header.IsBoardsPage` | client/src/components/Header.tsx:21 | the boards flag holds exactly when the path starts with `/board`, so the `/boards` test is subsumed |
| `Header.IsTasksPage` | client/src/components/Header.tsx:22 | the tasks flag: the path is exactly `/tasks` |
| `Header.BoardsPageIsBoardPrefix` | client/src/components/Header.tsx:21 | the boards flag holds iff the path starts with `/board`; the `/boards` test adds nothing |
| `Header.TasksPageIsExact` | client/src/components/Header.tsx:22 | `/tasks/1` and `/tasks/` are not tasks pages: the flag needs the exact path `/tasks` |
| `Header.NeverBoth` | client/src/components/Header.tsx:21-22 | the two flags are never both set |
| `Header.HeaderExamples` | client/src/components/Header.tsx:21-22 | `/` and `/bo` set neither flag; `/boards/3` and `/boardgames` set the boards flag |

## Findings

| source | as written | input that shows it | evidently intended | confidence | as-written member | corrected member |
|---|---|---|---|---|---|---|
| client/src/pages/BoardPage.tsx:21-28 | the `openTaskId` effect reruns after every render (its dependency `boardTasks` is a fresh array each time) and the hint is never cleared, so `handleClose` and `handleTaskClick` are undone by the next run | navigate from the task list to a board with `openTaskId` = id of a task of that board, then close its edit form: the form opens again | the hint auto-opens its task once, after which closing or clicking another task sticks | medium, not executed | `BoardPage.HintReopensAfterClose` | `BoardPage.SpentHintLeavesOpenTask` |

## Left out
- BoardPage.BoardView: the render cycle itself is not modelled. Which effect runs follow
  which state change is left to the caller; `CloseThenRender` shows one close followed
  by the run it causes, and the hint re-run undoes `Close` and `TaskClick` as the
  Findings row describes.

- Rendering, styling, modals, and the react-hook-form `Controller` wiring of the text
  fields and the two Autocomplete inputs. Each such handler dispatches a one-field
  `updateForm`, which `TaskFormSlice.UpdateForm` covers. The edit form's board
  Autocomplete can store `undefined` (`value?.id || undefined`, so also for id 0). The
  draft's `boardId` is an `int` here, so that case is not modelled.
- HTTP calls, the react-query cache and invalidation, and the loading and error states.
  These are I/O and a foreign library. Their results enter as `Option` parameters and as
  `succeeded`.
- Drag-and-drop reordering and column moves. The board component only forwards an
  `onDragEnd` callback, and no implementation of it is part of the code.
- Local-storage draft persistence (`loadPersistedForm`). The slice defines no such
  action and no storage code exists.
- Routing and `navigate` calls. The board route parameter is taken as already parsed:
  JavaScript `parseInt` of a non-numeric string (NaN) is not modelled.
- `toLowerCase` beyond ASCII `A`–`Z`; no Unicode case mapping.
- Console logging, the repository's test file and its mock request handlers.
- `CreateTaskForm.CreateForm.ChooseBoard`: takes the select's value as a number. The
  conversion `Number` of a string value is not modelled, because the options' values
  are board ids, which are numbers.
