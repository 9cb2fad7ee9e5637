/** The records the client exchanges with the task service
    (frontend/src/app/services/task.service.ts): the Task entity, the
    ApiResponse envelope, what a subscription delivers, and the abstract
    request descriptors that stand for the service's HTTP calls. */
module TaskModel {
  import opened Wrappers

  /** `status: 'pending' | 'in-progress' | 'completed'` */
  datatype Status = Pending | InProgress | Completed

  /** `priority: 'low' | 'medium' | 'high'` */
  datatype Priority = Low | Medium | High

  /** The string literal a status is spelled as in the TypeScript type. */
  function StatusName(st: Status): string {
    match st
    case Pending => "pending"
    case InProgress => "in-progress"
    case Completed => "completed"
  }

  /** The string literal a priority is spelled as in the TypeScript type. */
  function PriorityName(p: Priority): string {
    match p
    case Low => "low"
    case Medium => "medium"
    case High => "high"
  }

  /** Reads a string as a member of the status literal union, if it is one. */
  function ParseStatus(s: string): (r: Option<Status>)
    ensures r.Some? ==> StatusName(r.value) == s
    ensures r.None? <==> forall st: Status :: StatusName(st) != s
  {
    if s == "pending" then Some(Pending)
    else if s == "in-progress" then Some(InProgress)
    else if s == "completed" then Some(Completed)
    else None
  }

  /** Reads a string as a member of the priority literal union, if it is one. */
  function ParsePriority(s: string): (r: Option<Priority>)
    ensures r.Some? ==> PriorityName(r.value) == s
    ensures r.None? <==> forall p: Priority :: PriorityName(p) != s
  {
    if s == "low" then Some(Low)
    else if s == "medium" then Some(Medium)
    else if s == "high" then Some(High)
    else None
  }

  /** Spelling a status and reading it back gives the same status, so the
      three literals are distinct. */
  lemma StatusNameRoundTrip(st: Status)
    ensures ParseStatus(StatusName(st)) == Some(st)
  {
  }

  lemma PriorityNameRoundTrip(p: Priority)
    ensures ParsePriority(PriorityName(p)) == Some(p)
  {
  }

  /** A JavaScript `Date`. The integer only stands in for the value; the
      client never reads it. */
  datatype Instant = Instant(epochMillis: int)

  /** `interface Task`; `id` is the `_id` property the server assigns. */
  datatype Task = Task(
    id: Option<string>,
    title: string,
    description: string,
    status: Status,
    priority: Priority,
    dueDate: Option<string>,
    createdAt: Option<Instant>,
    updatedAt: Option<Instant>)

  /** A task that exists only in client memory has no server identifier. */
  predicate IsDraft(t: Task) {
    t.id.None?
  }

  /** The truthiness test `if (task._id)`: the property is present and is
      not the empty string. */
  predicate HasTruthyId(t: Task) {
    t.id.Some? && t.id.value != ""
  }

  /** `interface ApiResponse<T>` */
  datatype ApiResponse<T> = ApiResponse(
    success: bool,
    data: Option<T>,
    message: Option<string>,
    error: Option<string>)

  /** What a subscription to one service call delivers: either its `next`
      callback runs with the decoded envelope, or its `error` callback runs
      because the transport failed. */
  datatype Reply<T> = Delivered(response: ApiResponse<T>) | TransportError

  /** The controller applies a reply only when it was delivered with
      `success` set. */
  predicate Succeeded<T>(reply: Reply<T>) {
    reply.Delivered? && reply.response.success
  }

  /** The service calls the controller makes: `getTasks()`,
      `createTask(task)`, `updateTask(id, task)` and `deleteTask(id)`. */
  datatype Request =
    | List
    | Create(task: Task)
    | Update(id: string, task: Task)
    | Delete(id: string)
}
