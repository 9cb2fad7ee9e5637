/** A page session of the task manager: a sequence of user actions and
    service replies, each applied atomically to the current state. Replies
    are taken as arbitrary events, not matched to the requests in flight,
    so every property below holds whatever order the service answers in. */
module Session {
  import opened TaskModel
  import opened TaskManager

  datatype Event =
    | AddClicked
    | EditClicked(task: Task)
    | DraftEdited(draft: Task)
    | CancelClicked
    | SaveClicked
    | DeleteClicked(taskId: string, confirmed: bool)
    | TasksLoaded(listReply: Reply<seq<Task>>)
    | TaskSaved(saveReply: Reply<Task>)
    | TaskDeleted(deleteReply: Reply<()>)

  /** The form's two-way binding: while the form is shown, the user's input
      replaces the draft; it changes nothing else and issues nothing. With
      the form hidden there is no input to edit. */
  function EditDraft(s: State, d: Task): (r: Step)
    ensures s.showForm ==> ModeOf(r.state) == (if s.isEditing then Editing(d) else Adding(d))
    ensures !s.showForm ==> r.state == s
    ensures r.state.tasks == s.tasks
    ensures r.requests == []
  {
    if s.showForm then Step(s.(currentTask := d), []) else Step(s, [])
  }

  /** Applies one event; no event issues more than one request. */
  function Apply(s: State, e: Event): (r: Step)
    ensures |r.requests| <= 1
  {
    match e
    case AddClicked => ShowAddForm(s)
    case EditClicked(t) => EditTask(s, t)
    case DraftEdited(d) => EditDraft(s, d)
    case CancelClicked => CancelEdit(s)
    case SaveClicked => SaveTask(s)
    case DeleteClicked(id, ok) => DeleteTask(s, id, ok)
    case TasksLoaded(reply) => OnTasksLoaded(s, reply)
    case TaskSaved(reply) => OnTaskSaved(s, reply)
    case TaskDeleted(reply) => OnTaskDeleted(s, reply)
  }

  /** Applies a sequence of events in order, collecting the requests issued.
      Valid states stay valid, and the run issues at most one request per
      event. */
  function Run(s: State, evs: seq<Event>): (r: Step)
    ensures Valid(s) ==> Valid(r.state)
    ensures |r.requests| <= |evs|
    decreases |evs|
  {
    if evs == [] then Step(s, [])
    else
      var prev := Run(s, evs[..|evs| - 1]);
      var last := Apply(prev.state, evs[|evs| - 1]);
      Step(last.state, prev.requests + last.requests)
  }

  /** Every state reachable from start-up is valid. */
  lemma ReachableValid(evs: seq<Event>)
    ensures Valid(Run(Init().state, evs).state)
  {
  }

  /** A reply that replaces the list. */
  predicate IsLoad(e: Event) {
    e.TasksLoaded? && Succeeded(e.listReply)
  }

  /** A session with no successful list reply keeps the list it started
      with: failed and lost replies never clear it. */
  lemma {:induction false} RunWithoutLoadKeepsTasks(s: State, evs: seq<Event>)
    requires forall j :: 0 <= j < |evs| ==> !IsLoad(evs[j])
    ensures Run(s, evs).state.tasks == s.tasks
    decreases |evs|
  {
    if evs != [] {
      var init := evs[..|evs| - 1];
      forall j | 0 <= j < |init|
        ensures !IsLoad(init[j])
      {
        assert init[j] == evs[j];
      }
      RunWithoutLoadKeepsTasks(s, init);
    }
  }

  /** After a session the list is the payload of the last successful list
      reply, whatever form actions, saves and deletes came after it. */
  lemma {:induction false} RunKeepsLastLoad(s: State, evs: seq<Event>, i: nat)
    requires i < |evs| && IsLoad(evs[i])
    requires forall j :: i < j < |evs| ==> !IsLoad(evs[j])
    ensures Run(s, evs).state.tasks == evs[i].listReply.response.data
    decreases |evs|
  {
    var init := evs[..|evs| - 1];
    if i < |evs| - 1 {
      forall j | i < j < |init|
        ensures !IsLoad(init[j])
      {
        assert init[j] == evs[j];
      }
      RunKeepsLastLoad(s, init, i);
    }
  }

  /** The number of elements of a sequence that satisfy a predicate. */
  function Count<T>(xs: seq<T>, p: T -> bool): nat
    decreases |xs|
  {
    if xs == [] then 0
    else Count(xs[..|xs| - 1], p) + (if p(xs[|xs| - 1]) then 1 else 0)
  }

  lemma {:induction false} CountAppend<T>(xs: seq<T>, ys: seq<T>, p: T -> bool)
    ensures Count(xs + ys, p) == Count(xs, p) + Count(ys, p)
    decreases |ys|
  {
    if ys == [] {
      assert xs + ys == xs;
    } else {
      var ys' := ys[..|ys| - 1];
      assert (xs + ys)[..|xs + ys| - 1] == xs + ys';
      assert (xs + ys)[|xs + ys| - 1] == ys[|ys| - 1];
      CountAppend(xs, ys', p);
    }
  }

  predicate IsSaveRequest(q: Request) {
    q.Create? || q.Update?
  }

  predicate IsListRequest(q: Request) {
    q.List?
  }

  predicate IsSaveClick(e: Event) {
    e.SaveClicked?
  }

  /** A reply after which the controller reloads the list: a successful
      save or a successful delete. */
  predicate IsReloadTrigger(e: Event) {
    (e.TaskSaved? && Succeeded(e.saveReply)) || (e.TaskDeleted? && Succeeded(e.deleteReply))
  }

  /** What one event contributes to each kind of request. */
  lemma ApplyRequests(s: State, e: Event)
    ensures Count(Apply(s, e).requests, IsSaveRequest) == Count([e], IsSaveClick)
    ensures Count(Apply(s, e).requests, IsListRequest) == Count([e], IsReloadTrigger)
    ensures DeletedIds(Apply(s, e).requests) == ConfirmedIds([e])
  {
    var qs := Apply(s, e).requests;
    assert [e][..0] == [];
    if qs != [] {
      assert qs == [qs[0]];
      assert qs[..0] == [];
    }
  }

  /** Every save click sends exactly one create or update, and nothing else
      does: no save is dropped and none is sent twice. */
  lemma {:induction false} SavesMatchClicks(s: State, evs: seq<Event>)
    ensures Count(Run(s, evs).requests, IsSaveRequest) == Count(evs, IsSaveClick)
    decreases |evs|
  {
    if evs != [] {
      var init := evs[..|evs| - 1];
      var e := evs[|evs| - 1];
      assert evs == init + [e];
      var prev := Run(s, init);
      SavesMatchClicks(s, init);
      CountAppend(prev.requests, Apply(prev.state, e).requests, IsSaveRequest);
      CountAppend(init, [e], IsSaveClick);
      ApplyRequests(prev.state, e);
    }
  }

  /** The list is requested once after each successful save or delete, and
      at no other time after start-up. */
  lemma {:induction false} ReloadsMatchSuccesses(s: State, evs: seq<Event>)
    ensures Count(Run(s, evs).requests, IsListRequest) == Count(evs, IsReloadTrigger)
    decreases |evs|
  {
    if evs != [] {
      var init := evs[..|evs| - 1];
      var e := evs[|evs| - 1];
      assert evs == init + [e];
      var prev := Run(s, init);
      ReloadsMatchSuccesses(s, init);
      CountAppend(prev.requests, Apply(prev.state, e).requests, IsListRequest);
      CountAppend(init, [e], IsReloadTrigger);
      ApplyRequests(prev.state, e);
    }
  }

  /** The identifiers of the delete requests, in the order they were sent. */
  function DeletedIds(qs: seq<Request>): seq<string>
    decreases |qs|
  {
    if qs == [] then []
    else DeletedIds(qs[..|qs| - 1]) + (if qs[|qs| - 1].Delete? then [qs[|qs| - 1].id] else [])
  }

  /** The identifiers whose deletion the user confirmed, in click order. */
  function ConfirmedIds(evs: seq<Event>): seq<string>
    decreases |evs|
  {
    if evs == [] then []
    else
      var e := evs[|evs| - 1];
      ConfirmedIds(evs[..|evs| - 1]) + (if e.DeleteClicked? && e.confirmed then [e.taskId] else [])
  }

  lemma {:induction false} DeletedIdsAppend(xs: seq<Request>, ys: seq<Request>)
    ensures DeletedIds(xs + ys) == DeletedIds(xs) + DeletedIds(ys)
    decreases |ys|
  {
    if ys == [] {
      assert xs + ys == xs;
    } else {
      var ys' := ys[..|ys| - 1];
      assert (xs + ys)[..|xs + ys| - 1] == xs + ys';
      assert (xs + ys)[|xs + ys| - 1] == ys[|ys| - 1];
      DeletedIdsAppend(xs, ys');
    }
  }

  lemma ConfirmedIdsSnoc(evs: seq<Event>, e: Event)
    ensures ConfirmedIds(evs + [e]) == ConfirmedIds(evs) + ConfirmedIds([e])
  {
    assert (evs + [e])[..|evs + [e]| - 1] == evs;
    assert [e][..0] == [];
  }

  /** A delete is sent exactly for each confirmed delete click, with the
      clicked identifier and in click order; a declined confirmation sends
      nothing. */
  lemma {:induction false} DeletesMatchConfirmations(s: State, evs: seq<Event>)
    ensures DeletedIds(Run(s, evs).requests) == ConfirmedIds(evs)
    decreases |evs|
  {
    if evs != [] {
      var init := evs[..|evs| - 1];
      var e := evs[|evs| - 1];
      assert evs == init + [e];
      var prev := Run(s, init);
      DeletesMatchConfirmations(s, init);
      DeletedIdsAppend(prev.requests, Apply(prev.state, e).requests);
      ConfirmedIdsSnoc(init, e);
      ApplyRequests(prev.state, e);
    }
  }

  /** Opening the add form or the edit form and then cancelling is the same
      as cancelling: the list is untouched and no request is sent. */
  lemma OpenThenCancel(s: State, e: Event)
    requires e.AddClicked? || e.EditClicked? || e.CancelClicked?
    ensures Run(s, [e, CancelClicked]) == Run(s, [CancelClicked])
    ensures Run(s, [CancelClicked]) == CancelEdit(s)
  {
    assert [e, CancelClicked][..1] == [e];
    assert [e][..0] == [];
    assert [CancelClicked][..0] == [];
  }
}
