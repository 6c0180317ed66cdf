# Task status board of the UpTask client, in Dafny

This project models the one piece of original client-side logic of the UpTask
project-management front end: the **task status board** of a project page.
It also models the entity shapes and the small pure helpers the board relies on.

- **Status grouping** (`TaskList`): the project's flat task list is folded with
  `reduce` into an object keyed by status. The fold starts from
  `initialStatusGroups`, which already holds the five statuses with empty
  arrays. Each step copies the task's array, appends the task and writes the
  copy back with an object spread. The board renders the columns in the
  object's key order. The object is modelled as its list of entries in key
  insertion order. So "the columns come in the fixed order pending, onHold,
  inProgress, underReview, completed" is proved, not assumed.
- **Drag end with an optimistic cache patch** (`TaskList.QueryCache`): a class
  holding the cached projects by query key, the set of invalidated keys, the
  log of status-update requests sent and the log of notifications shown.
  `DragEnd` sends one request and patches the cached project under
  `["project", projectId]`. The patch itself is the pure function
  `PatchProject`. `OnSuccess` invalidates that key. `OnError` only shows the
  message, and the patch stays in the cache.
- **Entity shapes** (`Types`): the status enum, tasks, task summaries, projects,
  and the dashboard and form projections, as datatypes and projection
  functions. The field `_id` is written `id`.
- **Helpers** (`Policies`, `Tabs`): the manager rule `isManager` and the
  `canEdit` flag built from the same comparison; `classNames`
  (`filter(Boolean).join(" ")`); and the current-tab lookup of the profile page.

Points of the drag-end handler that the model keeps as the code has them:

- `over.id` is cast to `TaskStatus` without a check
  (src/components/tasks/TaskList.tsx:93). The model makes the cast a
  precondition of `DragEnd`, and `BoardDropZonesAreStatuses` shows that every
  drop zone the board registers meets it.
- The request is sent (`mutate`, line 94) before the cache is patched
  (`setQueryData`, line 96). The model keeps that order. If no project is
  cached under the key, the updater dereferences `undefined` and throws after
  the request has gone out. This is the `UpdaterFailed` outcome: request
  logged, cache unchanged.
- The error callback (lines 65-67) only shows the message. `OnError` leaves
  the optimistic patch in the cache.
- Nothing in the source relates a project's `manager` to its `team`, so the
  model states no relation between them.

## Model

| member | source | states |
|---|---|---|
| `Types.ParseStatus` | src/types/index.ts:71-79 | parsing against the enum yields a status exactly when the string is one of the five names, and that status's name is the string |
| `Types.AllStatusesEnumerated` | src/types/index.ts:71-77 | the enum has exactly five values, each listed once, in declaration order |
| `Types.ParseStatusName` | src/types/index.ts:71-77 | every status name is non-empty and parses back to its status |
| `Types.StatusNameInjective` | src/types/index.ts:71-77 | distinct statuses have distinct names |
| `Types.ToTaskProject` | src/types/index.ts:101-106 | the task summary keeps id, name, description and status of the task |
| `Types.TaskProjectRoundTrip` | src/types/index.ts:82-106 | the summary drops exactly project, completedBy, notes and the timestamps: restoring them gives back the task |
| `Types.TaskStatusesFromEnum` | src/types/index.ts:87-94 | a task's status and the status of each completedBy entry are values of the one enum |
| `Types.SummariesKeepIdAndStatus` | src/types/index.ts:101-110 | summarising a list of tasks keeps each task's id and status |
| `Types.ToTaskFormData` | src/types/index.ts:113 | the task form is the task's name and description |
| `Types.ToDashboardProject` | src/types/index.ts:130-139 | a dashboard element keeps id, projectName, clientName, description and manager |
| `Types.ToDashboard` | src/types/index.ts:130-139 | the dashboard list has one element per project, in order, each its projection |
| `Types.DashboardRoundTrip` | src/types/index.ts:118-139 | the dashboard element drops exactly the task list and the team |
| `Types.ToProjectFormData` | src/types/index.ts:142-155 | the edit schema and the project form keep exactly projectName, clientName and description |
| `Types.FormDataThroughDashboard` | src/types/index.ts:130-146 | picking the form fields from a dashboard element gives the project's form |
| `Types.ToNoteFormData` | src/types/index.ts:66 | the note form is the note's content |
| `Types.ToUserProfileForm` | src/types/index.ts:50 | the profile form is the user's name and email |
| `Types.ToTeamMemberForm` | src/types/index.ts:160-172 | a team member has exactly a user's fields, and the add-member form is the member's email |
| `Policies.IsManagerIffSameId` | src/utils/policies.ts:5-10 | a user is the manager exactly when the two ids are equal |
| `Policies.IsManagerReflexive` | src/utils/policies.ts:9 | everyone manages a project whose manager id is their own |
| `Policies.IsManagerSymmetric` | src/utils/policies.ts:9 | swapping the two ids does not change the answer |
| `Policies.CanEdit` | src/views/projects/ProjectDetailsView.tsx:41 | with project and user loaded, canEdit is the manager rule; with exactly one of them absent it is false |
| `Policies.CanEditMatchesMenu` | src/views/projects/ProjectDetailsView.tsx:41-56 | canEdit and the manager-only menu use the same rule once both are loaded; with both absent canEdit is true |
| `Tabs.KeepTruthy` | src/components/profile/Tabs.tsx:18 | `filter(Boolean)` keeps exactly the non-empty strings and never lengthens the list |
| `Tabs.KeepTruthyAppend` | src/components/profile/Tabs.tsx:18 | the filter distributes over concatenation, so kept strings keep their relative order |
| `Tabs.ClassNamesOfEmpties` | src/components/profile/Tabs.tsx:17-19 | with no arguments or only empty strings the result is "" |
| `Tabs.ClassNamesOfOne` | src/components/profile/Tabs.tsx:17-19 | when one string survives the filter, the result is that string unchanged |
| `Tabs.JoinWithSpaceCounts` | src/components/profile/Tabs.tsx:18 | joining n parts adds exactly n - 1 spaces and no other characters |
| `Tabs.ClassNamesSeparators` | src/components/profile/Tabs.tsx:17-19 | the result's spaces are those of the kept strings plus one between each pair of neighbours; its length is their total plus that count |
| `Tabs.SplitJoinWithSpace` | src/components/profile/Tabs.tsx:18 | splitting on spaces inverts the join of space-free parts |
| `Tabs.ClassNamesSplit` | src/components/profile/Tabs.tsx:17-19 | for space-free classes, splitting the result recovers exactly the kept strings in order |
| `Tabs.TabsWithHref` | src/components/profile/Tabs.tsx:29 | the filter keeps exactly the tabs whose href is the pathname |
| `Tabs.FirstHref` | src/components/profile/Tabs.tsx:29-30 | the lookup succeeds exactly when some tab has the pathname as href, and then yields the pathname |
| `Tabs.CurrentTab` | src/components/profile/Tabs.tsx:7-30 | the current tab is the pathname when it is "/profile" or "/profile/password"; for any other pathname the lookup fails |
| `TaskList.Put` | src/components/tasks/TaskList.tsx:84 | the object spread sets the key, leaves the other keys' values alone, keeps an existing key's position and appends a new key |
| `TaskList.InitialStatusGroupsShape` | src/components/tasks/TaskList.tsx:36-42 | the initial object holds the five statuses in enum order, each with an empty array |
| `TaskList.AddToGroupStep` | src/components/tasks/TaskList.tsx:80-84 | a reducer step keeps the keys and their order and appends the task to its own status only |
| `TaskList.AddToGroupAppends` | src/components/tasks/TaskList.tsx:80-84 | one reducer step followed by the rest of the input appends what the whole input appends |
| `TaskList.ReduceKeepsKeys` | src/components/tasks/TaskList.tsx:76-86 | folding over an object with all five keys keeps the keys in place |
| `TaskList.ReduceAppendsByStatus` | src/components/tasks/TaskList.tsx:76-86 | folding appends, under each status, exactly the input tasks of that status in input order |
| `TaskList.GroupTasksIsBoard` | src/components/tasks/TaskList.tsx:36-86 | the grouped object equals the reference board: one column per status in enum order, each holding exactly that status's tasks in input order |
| `TaskList.GroupTasksColumns` | src/components/tasks/TaskList.tsx:76-120 | columns are rendered in the order pending, onHold, inProgress, underReview, completed, and every status is present, empty when no task has it |
| `TaskList.GroupTasksOfEmpty` | src/components/tasks/TaskList.tsx:76-86 | an empty task list yields the initial object: five keys, all empty |
| `TaskList.GroupTasksMembership` | src/components/tasks/TaskList.tsx:76-86 | a task is in a column exactly when it is an input task with that column's status, so it is in exactly one column |
| `TaskList.WithStatusMembers` | src/components/tasks/TaskList.tsx:80-84 | a column keeps exactly the input tasks of its status |
| `TaskList.WithStatusAppend` | src/components/tasks/TaskList.tsx:80-84 | a column of a concatenation is the concatenation of the columns: earlier tasks come first |
| `TaskList.WithStatusOrder` | src/components/tasks/TaskList.tsx:80-84 | a task sits in its column at the count of earlier same-status tasks, and a later same-status task sits strictly after it |
| `TaskList.WithStatusAt` | src/components/tasks/TaskList.tsx:80-84 | the task at input index k sits in its column right after the earlier tasks of its status |
| `TaskList.PutAppendFlatten` | src/components/tasks/TaskList.tsx:80-84 | appending a task under a present key adds exactly that task to the object's contents |
| `TaskList.ReduceFlatten` | src/components/tasks/TaskList.tsx:76-86 | the fold adds every input task to the object's contents exactly once |
| `TaskList.GroupTasksPartition` | src/components/tasks/TaskList.tsx:76-86 | the columns together hold the input tasks as a multiset, so the column lengths sum to the input length |
| `TaskList.DropZoneIds` | src/components/tasks/TaskList.tsx:127-130 | each column's drop zone id is its status name, non-empty and parsing to that status |
| `TaskList.BoardDropZonesAreStatuses` | src/components/tasks/DropTask.tsx:11-13 | every drop zone the board registers passes the unchecked cast to a status |
| `TaskList.DropStatus` | src/components/tasks/TaskList.tsx:91-93 | no status when the target is absent or its id is empty; otherwise the status whose name is the id |
| `TaskList.PatchTasks` | src/components/tasks/TaskList.tsx:97-103 | the map keeps length and order; each task is patched on its own |
| `TaskList.PatchProject` | src/components/tasks/TaskList.tsx:96-105 | every non-task field is unchanged; tasks keep length, order, id, name and description; exactly the tasks with the dragged id get the target status |
| `TaskList.PatchProjectIdempotent` | src/components/tasks/TaskList.tsx:96-105 | applying the same patch twice gives the same project as applying it once |
| `TaskList.PatchProjectLastWins` | src/components/tasks/TaskList.tsx:96-105 | of two patches to one task, the later decides its status |
| `TaskList.PatchProjectCommutes` | src/components/tasks/TaskList.tsx:96-105 | patches to two different tasks commute |
| `TaskList.PatchProjectSameStatus` | src/components/tasks/TaskList.tsx:96-105 | dropping a task on its own column leaves the cached project unchanged |
| `TaskList.PatchLeavesOtherColumns` | src/components/tasks/TaskList.tsx:97-103 | every column other than the target loses exactly the dragged task and keeps the rest in order |
| `TaskList.PatchPutsInTargetColumn` | src/components/tasks/TaskList.tsx:97-103 | the dragged task, with its new status, is in the target column |
| `TaskList.QueryCache.DragEnd` | src/components/tasks/TaskList.tsx:88-107 | without a target nothing changes; otherwise exactly one request (project, task, status) is logged, even onto the task's own column, and the cached project is replaced by its patch, or left alone when none is cached; invalidations and notifications are untouched |
| `TaskList.QueryCache.OnSuccess` | src/components/tasks/TaskList.tsx:69-74 | the key ["project", projectId] is invalidated and the server's message shown; cache entries and requests are untouched |
| `TaskList.QueryCache.OnError` | src/components/tasks/TaskList.tsx:65-67 | the error message is shown; cache entries (the optimistic patch included), invalidations and requests are untouched |

## Left out

- JSX rendering, modals, styles (`statusStyles`), status translations, tab icons and routing: presentation only.
- The API layer (`updateStatus` and the other axios calls with schema parsing), the bearer-token interceptor and `formatDate`: network I/O, browser storage and locale formatting. The request log of `QueryCache` stands in for the outbound call. The server's message and error text are parameters of `OnSuccess` and `OnError`.
- What react-query does after an invalidation (a refetch that replaces the cached project): network I/O. The model records the key as invalidated.
- Cache invalidations in other components, and the mutations and forms of notes, team and profile: framework callbacks outside the status board.
- Asynchrony: two in-flight requests that settle out of order are not modelled. Calls are sequential. `PatchProjectLastWins` states that the cache keeps the last drag's status.
- Form validation rules (required fields, e-mail pattern, minimum length, confirmation): options interpreted by the form library.
- The `Auth` schema and its `Pick` forms (login, registration, password and token forms): used only by the authentication views.
- `TaskList.QueryCache.DragEnd`: a drop id that is neither empty nor a status name is not modelled. The source would send it and write it into the cache unchecked. The board registers only status-named drop zones (`TaskList.BoardDropZonesAreStatuses`).
