# Task manager view-controller, modelled in Dafny

This project models the client side of a small task-management web app. The
model covers the `App` view-controller of the Angular front end, which keeps
four fields:

- `tasks`: the last list loaded from the server, which may be `undefined`;
- `currentTask`: the draft or the copy being edited;
- `isEditing`;
- `showForm`.

These fields change through the user actions `showAddForm`, `editTask`,
`cancelEdit`, `saveTask` and `deleteTask`, and through the callbacks that run
when the task service answers. The `Task` and `ApiResponse<T>` records come
from the task service module.

Each state is an immutable `State` value. Each action and each reply is a pure
function. It returns a `Step`, which holds the next state and the service
requests issued (`List`, `Create(task)`, `Update(id, task)`, `Delete(id)`).
Issuing a request stands for subscribing to the service call. Its answer comes
back later as a separate step:

- `Delivered(ApiResponse)` for the `next` callback;
- `TransportError` for the `error` callback.

Modules:

- `Wrappers`: `Option`, used for optional properties and for `T | undefined`.
- `TaskModel` (services/task.service.ts):
  - the `Status` and `Priority` literal unions, their spellings and parsers;
  - `Task`, `ApiResponse`, `Reply` and the request descriptors.
- `Colors`: `getStatusColor` and `getPriorityColor`, which are total over all
  strings.
- `TaskManager` (app.ts): the state, every transition and every completion.
  It also holds the tagged view of the form (`Idle | Adding(draft) |
  Editing(draft)`) and its round trip with the four fields.
- `Session`: runs a sequence of actions, edits of the draft in the open form,
  and replies. It also holds the
  properties of whole sessions: which list is kept, how many saves, reloads
  and deletes are sent, and that every reachable state is valid.
- `Scenarios`: concrete sessions, such as adding "Buy milk", editing a task
  and declining a delete.

`saveTask` tests `this.isEditing && this.currentTask._id`
(frontend/src/app/app.ts:61). This is a truthiness test, so an identifier
equal to the empty string leads to a create. `HasTruthyId` means "present and
not empty", and `Scenarios.EmptyIdEditCreates` shows the case.

## Model

| member | source | states |
|---|---|---|
| TaskModel.ParseStatus | frontend/src/app/services/task.service.ts:10 | a string is a status exactly when it is one of the three status literals, and it then reads back as the status spelled that way |
| TaskModel.ParsePriority | frontend/src/app/services/task.service.ts:11 | a string is a priority exactly when it is one of the three priority literals, and it then reads back as the priority spelled that way |
| TaskModel.StatusNameRoundTrip | frontend/src/app/services/task.service.ts:10 | spelling a status and parsing it back gives the same status |
| TaskModel.PriorityNameRoundTrip | frontend/src/app/services/task.service.ts:11 | spelling a priority and parsing it back gives the same priority |
| Colors.StatusColor | frontend/src/app/app.ts:109-116 | total over all strings: a status literal gets its colour (completed green #28a745, in-progress blue #007bff, pending amber #ffc107) and every other string gets grey #6c757d |
| Colors.PriorityColor | frontend/src/app/app.ts:118-125 | total over all strings: a priority literal gets its colour (high red #dc3545, medium orange #fd7e14, low green #28a745) and every other string gets grey #6c757d |
| Colors.StatusColorsSeparate | frontend/src/app/app.ts:109-116 | grey is returned exactly for strings that are not statuses, and the three status colours are pairwise distinct |
| Colors.PriorityColorsSeparate | frontend/src/app/app.ts:118-125 | grey is returned exactly for strings that are not priorities, and the three priority colours are pairwise distinct |
| TaskManager.EmptyTask | frontend/src/app/app.ts:25-33 | the fresh draft has no identifier and no timestamps; it has empty title, description and due date, status pending and priority medium |
| TaskManager.StateOf | frontend/src/app/app.ts:14-17 | every form state (list view, add form with a draft, edit form with a copy) is represented by a valid field combination that reads back as that form state, with the list kept |
| TaskManager.ModeRoundTrip | frontend/src/app/app.ts:14-17 | a valid field combination is exactly the tagged form state it reads as, so the four fields hold nothing beyond the list and the form state |
| TaskManager.Init | frontend/src/app/app.ts:14-23 | at start-up the list is empty, the form is hidden on the empty draft, and exactly one list request is issued |
| TaskManager.LoadTasks | frontend/src/app/app.ts:35-36 | loading issues one list request and changes no field |
| TaskManager.OnTasksLoaded | frontend/src/app/app.ts:37-45 | a successful envelope replaces the list by its payload, even when the payload is absent; a failed envelope or transport error changes nothing; the form fields are never touched and nothing is issued |
| TaskManager.ShowAddForm | frontend/src/app/app.ts:48-52 | the add form opens on the empty draft, the controller is not editing, the list is kept and nothing is issued |
| TaskManager.EditTask | frontend/src/app/app.ts:54-58 | the edit form opens on a field-for-field copy of the task, identifier included; the list is kept and nothing is issued |
| TaskManager.CancelEdit | frontend/src/app/app.ts:103-107 | the form closes, editing stops and the draft is reset to the empty task; the list is kept and nothing is issued |
| TaskManager.CancelEditIdempotent | frontend/src/app/app.ts:103-107 | cancelling twice gives the same state and requests as cancelling once |
| TaskManager.SaveRequest | frontend/src/app/app.ts:61-74 | the save is an update exactly when editing a task with a truthy identifier, and then it targets that identifier; otherwise it is a create; either way it carries the current task |
| TaskManager.SaveTask | frontend/src/app/app.ts:60-86 | saving issues exactly one request, update or create as the identifier test decides, and changes no field until the reply arrives |
| TaskManager.OnTaskSaved | frontend/src/app/app.ts:62-84 | a successful create or update reply gives the state cancelEdit would give and issues one list request; a failed envelope or a transport error leaves the state unchanged and issues nothing |
| TaskManager.DeleteTask | frontend/src/app/app.ts:88-90 | a confirmed delete issues exactly one delete of the given identifier; a declined one issues nothing; neither changes the state |
| TaskManager.OnTaskDeleted | frontend/src/app/app.ts:90-99 | a successful delete reply issues one list request, a failed one nothing, and no outcome changes the list or the form |
| Session.EditDraft | frontend/src/app/app.ts:15 | while the form is shown the user's input replaces the draft and nothing else changes; with the form hidden nothing changes; nothing is issued |
| Session.Apply | frontend/src/app/app.ts:35-107 | no user action or reply issues more than one request |
| Session.Run | frontend/src/app/app.ts:35-107 | over any session, valid states stay valid and at most one request is issued per event |
| Session.ReachableValid | frontend/src/app/app.ts:14-23 | every state reachable from start-up has the form hidden only with editing off and the empty draft |
| Session.RunWithoutLoadKeepsTasks | frontend/src/app/app.ts:37-44 | a session without a successful list reply ends with the list it started with |
| Session.RunKeepsLastLoad | frontend/src/app/app.ts:37-44 | after a session, the list is the payload of the last successful list reply, whatever actions or replies came after it |
| Session.SavesMatchClicks | frontend/src/app/app.ts:60-86 | over any session, the number of create and update requests equals the number of save actions |
| Session.ReloadsMatchSuccesses | frontend/src/app/app.ts:62-99 | over any session, the number of list requests equals the number of successful save and delete replies |
| Session.DeletesMatchConfirmations | frontend/src/app/app.ts:88-101 | the delete requests of a session carry exactly the identifiers of the confirmed delete actions, in order |
| Session.OpenThenCancel | frontend/src/app/app.ts:48-107 | opening the add or edit form and then cancelling is the same as cancelling: the list is kept and nothing is issued |
| Scenarios.AddSession | frontend/src/app/app.ts:48-86 | the session from start-up open add form, type "Buy milk", save, successful reply opens the form on the empty draft, issues exactly one create of the typed draft and then one reload, and ends with the form closed |
| Scenarios.EditSession | frontend/src/app/app.ts:54-86 | the session open task "1" for editing, type a new title, save, successful reply issues one update of "1" with the whole edited task, then one reload, and ends with the form closed and the list kept |
| Scenarios.FailedSaveKeepsForm | frontend/src/app/app.ts:60-86 | a failed or lost save reply leaves the state as it was before saving and issues nothing |
| Scenarios.EmptyIdEditCreates | frontend/src/app/app.ts:61 | editing a task whose identifier is the empty string and saving issues a create, not an update |
| Scenarios.DeclinedDeleteScenario | frontend/src/app/app.ts:88-101 | a declined delete issues no request and keeps the state |

## Left out

- The `TaskService` methods (services/task.service.ts:32-50) are one-line HTTP client wrappers. They are represented only by the abstract request descriptors, so the URLs and HTTP verbs are not modelled.
- `getTask(id)` is not modelled, because the controller never calls it.
- Angular's component decorator, dependency injection and the `ngOnInit` hook are not modelled. Construction and `ngOnInit` together are `TaskManager.Init`.
- The `title` field ('Task Manager') is not modelled, because no transition reads or writes it.
- `console.error` logging is not modelled. A transport error is the `TransportError` reply, and it carries no payload.
- The browser's `confirm()` dialog is the boolean `confirmed` argument of `DeleteTask`.
- The `message` and `error` fields of the envelope are modelled as data, but the controller never reads them.
- Overlapping asynchronous replies are not tied to the requests in flight. Every reply is an atomic step on the current state, and the session lemmas hold for replies in any order. Stale-list effects of interleavings are therefore not characterised beyond the "last successful list reply wins" property.
- `createdAt` and `updatedAt` are optional `Instant` values. Their integer only stands in for a JavaScript `Date`, because the client never reads it.
- The HTML template and the CSS are not part of this model. Their two-way form binding is represented only by the session event `DraftEdited`. That event replaces the draft while the form is shown, so a session can save any draft the user types. Which fields the form actually exposes is not modelled.
- Session.EditDraft: the event may replace any field of the draft, `_id` and the timestamps included, so the modelled sessions over-approximate what the form can produce. For example, a session may update an identifier the user never opened for editing. The session lemmas hold for this larger set of sessions, so they also hold for the real ones.
