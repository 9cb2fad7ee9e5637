/** The view-controller of the task manager (class `App` in
    frontend/src/app/app.ts). Its four fields form an immutable State;
    every user action and every service reply is a pure function from the
    current state to the next state and the service requests it issues.
    Issuing a request stands for the `subscribe` call; the reply arrives
    later as a separate completion step. */
module TaskManager {
  import opened Wrappers
  import opened TaskModel

  datatype State = State(
    tasks: Option<seq<Task>>,
    currentTask: Task,
    isEditing: bool,
    showForm: bool)

  /** The outcome of one transition: the next state and the requests issued. */
  datatype Step = Step(state: State, requests: seq<Request>)

  /** `getEmptyTask()`: a fresh draft, pending and of medium priority. */
  function EmptyTask(): (t: Task)
    ensures IsDraft(t)
    ensures t.title == "" && t.description == "" && t.dueDate == Some("")
    ensures t.status == Pending && t.priority == Medium
    ensures t.createdAt.None? && t.updatedAt.None?
  {
    Task(None, "", "", Pending, Medium, Some(""), None, None)
  }

  /** The form state as a tagged variant: the list view, the add form with
      its draft, or the edit form with the copy being edited. */
  datatype Mode = Idle | Adding(draft: Task) | Editing(draft: Task)

  /** Reads the form state out of the three form fields. */
  function ModeOf(s: State): Mode {
    if !s.showForm then Idle
    else if s.isEditing then Editing(s.currentTask)
    else Adding(s.currentTask)
  }

  /** The field combinations the controller can reach: with the form hidden
      the controller is not editing and holds the empty draft. */
  predicate Valid(s: State) {
    !s.showForm ==> !s.isEditing && s.currentTask == EmptyTask()
  }

  /** Writes a form state back into the three form fields. */
  function StateOf(tasks: Option<seq<Task>>, m: Mode): (s: State)
    ensures Valid(s)
    ensures ModeOf(s) == m
    ensures s.tasks == tasks
  {
    match m
    case Idle => State(tasks, EmptyTask(), false, false)
    case Adding(d) => State(tasks, d, false, true)
    case Editing(d) => State(tasks, d, true, true)
  }

  /** Every valid state is exactly the tagged variant it reads as, so the
      four fields carry no information beyond the list and the Mode. */
  lemma ModeRoundTrip(s: State)
    requires Valid(s)
    ensures StateOf(s.tasks, ModeOf(s)) == s
  {
  }

  /** Construction plus `ngOnInit`: an empty list, the empty draft, the
      form hidden, and one list request. */
  function Init(): (r: Step)
    ensures Valid(r.state)
    ensures ModeOf(r.state) == Idle
    ensures r.state.tasks == Some([])
    ensures r.requests == [List]
  {
    Step(State(Some([]), EmptyTask(), false, false), [List])
  }

  /** `loadTasks()`: issues the list request and changes nothing yet. */
  function LoadTasks(s: State): (r: Step)
    ensures r.state == s
    ensures r.requests == [List]
  {
    Step(s, [List])
  }

  /** The subscription callbacks of `loadTasks()`: a successful envelope
      replaces the list by its payload, absent or not; a failed envelope or
      a transport error leaves the state as it was. The form is never
      touched and nothing is issued. */
  function OnTasksLoaded(s: State, reply: Reply<seq<Task>>): (r: Step)
    ensures r.requests == []
    ensures ModeOf(r.state) == ModeOf(s) && r.state.currentTask == s.currentTask
    ensures r.state == s.(tasks := r.state.tasks)
    ensures Succeeded(reply) ==> r.state.tasks == reply.response.data
    ensures !Succeeded(reply) ==> r.state == s
  {
    match reply
    case Delivered(response) =>
      if response.success then Step(s.(tasks := response.data), []) else Step(s, [])
    case TransportError => Step(s, [])
  }

  /** `showAddForm()`: opens the add form on the empty draft. */
  function ShowAddForm(s: State): (r: Step)
    ensures Valid(r.state)
    ensures ModeOf(r.state) == Adding(EmptyTask())
    ensures r.state.tasks == s.tasks
    ensures r.requests == []
  {
    Step(s.(currentTask := EmptyTask(), isEditing := false, showForm := true), [])
  }

  /** `editTask(task)`: opens the edit form on a copy of the task, its
      identifier included. */
  function EditTask(s: State, task: Task): (r: Step)
    ensures Valid(r.state)
    ensures ModeOf(r.state) == Editing(task)
    ensures r.state.currentTask.id == task.id
    ensures r.state.tasks == s.tasks
    ensures r.requests == []
  {
    Step(s.(currentTask := task, isEditing := true, showForm := true), [])
  }

  /** `cancelEdit()`: closes the form and discards the draft, issuing
      nothing. */
  function CancelEdit(s: State): (r: Step)
    ensures Valid(r.state)
    ensures ModeOf(r.state) == Idle
    ensures r.state.tasks == s.tasks
    ensures r.requests == []
  {
    Step(s.(showForm := false, isEditing := false, currentTask := EmptyTask()), [])
  }

  /** Cancelling twice is cancelling once. */
  lemma CancelEditIdempotent(s: State)
    ensures CancelEdit(CancelEdit(s).state) == CancelEdit(s)
  {
  }

  /** The request `saveTask()` chooses: an update of the task's own
      identifier when editing a task whose `_id` is truthy, and a create of
      the current task otherwise. */
  function SaveRequest(s: State): (q: Request)
    ensures q.Update? <==> s.isEditing && HasTruthyId(s.currentTask)
    ensures q.Update? ==> q.id != "" && Some(q.id) == s.currentTask.id
    ensures q.Create? || q.Update?
    ensures q.task == s.currentTask
  {
    if s.isEditing && HasTruthyId(s.currentTask) then
      Update(s.currentTask.id.value, s.currentTask)
    else
      Create(s.currentTask)
  }

  /** `saveTask()`: issues exactly one create or update and changes nothing
      until the reply arrives. */
  function SaveTask(s: State): (r: Step)
    ensures r.state == s
    ensures |r.requests| == 1
    ensures r.requests[0].Update? <==> s.isEditing && HasTruthyId(s.currentTask)
    ensures r.requests[0].Update? ==> r.requests[0] == Update(s.currentTask.id.value, s.currentTask)
    ensures !r.requests[0].Update? ==> r.requests[0] == Create(s.currentTask)
  {
    Step(s, [SaveRequest(s)])
  }

  /** The subscription callbacks of `saveTask()`, the same for the create and
      the update call: success reloads the list and closes the form as
      `cancelEdit()` does; a failed envelope or a transport error leaves the
      form open and issues nothing. */
  function OnTaskSaved(s: State, reply: Reply<Task>): (r: Step)
    ensures Succeeded(reply) ==> r.state == CancelEdit(s).state && r.requests == [List]
    ensures !Succeeded(reply) ==> r.state == s && r.requests == []
  {
    if Succeeded(reply) then
      var reload := LoadTasks(s);
      Step(CancelEdit(reload.state).state, reload.requests)
    else
      Step(s, [])
  }

  /** `deleteTask(taskId)` with the answer of the confirmation dialog:
      confirmed, it issues one delete of that identifier; declined, it
      issues nothing. The state does not change either way. */
  function DeleteTask(s: State, taskId: string, confirmed: bool): (r: Step)
    ensures r.state == s
    ensures confirmed ==> r.requests == [Delete(taskId)]
    ensures !confirmed ==> r.requests == []
  {
    if confirmed then Step(s, [Delete(taskId)]) else Step(s, [])
  }

  /** The subscription callbacks of `deleteTask()`: success reloads the list;
      no outcome changes the state. The payload is never read. */
  function OnTaskDeleted<T>(s: State, reply: Reply<T>): (r: Step)
    ensures r.state == s
    ensures Succeeded(reply) ==> r.requests == [List]
    ensures !Succeeded(reply) ==> r.requests == []
  {
    if Succeeded(reply) then LoadTasks(s) else Step(s, [])
  }
}
