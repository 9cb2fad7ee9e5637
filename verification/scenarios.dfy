/** Concrete sessions of the task manager, stated as lemmas over the model. */
module Scenarios {
  import opened Wrappers
  import opened TaskModel
  import opened TaskManager
  import opened Session

  function Ok<T>(data: Option<T>): Reply<T> {
    Delivered(ApiResponse(true, data, None, None))
  }

  /** From start-up, open the add form, type the title "Buy milk" and save:
      the form opens on the empty draft, the typed draft is sent as one
      create, and the successful reply requests one reload and closes the
      form on a fresh draft. */
  lemma AddSession(created: Task)
    ensures var d := EmptyTask().(title := "Buy milk");
            var evs := [AddClicked, DraftEdited(d), SaveClicked, TaskSaved(Ok(Some(created)))];
            var r := Run(Init().state, evs);
            && ShowAddForm(Init().state).state.currentTask
               == Task(None, "", "", Pending, Medium, Some(""), None, None)
            && r.requests == [Create(d), List]
            && ModeOf(r.state) == Idle
            && r.state.tasks == Some([])
  {
    var d := EmptyTask().(title := "Buy milk");
    var evs := [AddClicked, DraftEdited(d), SaveClicked, TaskSaved(Ok(Some(created)))];
    var s0 := Init().state;
    assert evs[..3] == [AddClicked, DraftEdited(d), SaveClicked];
    assert evs[..3][..2] == [AddClicked, DraftEdited(d)];
    assert evs[..3][..2][..1] == [AddClicked];
    assert evs[..3][..2][..1][..0] == [];
    var r1 := Run(s0, [AddClicked]);
    assert r1 == Step(ShowAddForm(s0).state, []);
    var r2 := Run(s0, [AddClicked, DraftEdited(d)]);
    assert r2 == Step(r1.state.(currentTask := d), []);
    var r3 := Run(s0, evs[..3]);
    assert r3 == Step(r2.state, [Create(d)]);
  }

  /** Open a persisted task for editing, retitle it and save: one update of
      its own identifier carrying the whole edited task; the successful reply
      requests one reload and closes the form. */
  lemma EditSession(s: State)
    ensures var t := Task(Some("1"), "Old", "", Pending, Low, None, None, None);
            var d := t.(title := "New");
            var evs := [EditClicked(t), DraftEdited(d), SaveClicked, TaskSaved(Ok(Some(d)))];
            var r := Run(s, evs);
            && r.requests == [Update("1", d), List]
            && ModeOf(r.state) == Idle
            && r.state.tasks == s.tasks
  {
    var t := Task(Some("1"), "Old", "", Pending, Low, None, None, None);
    var d := t.(title := "New");
    var evs := [EditClicked(t), DraftEdited(d), SaveClicked, TaskSaved(Ok(Some(d)))];
    assert evs[..3] == [EditClicked(t), DraftEdited(d), SaveClicked];
    assert evs[..3][..2] == [EditClicked(t), DraftEdited(d)];
    assert evs[..3][..2][..1] == [EditClicked(t)];
    assert evs[..3][..2][..1][..0] == [];
    assert [EditClicked(t)][..0] == [];
    assert Run(s, []) == Step(s, []);
    var r1 := Run(s, [EditClicked(t)]);
    assert r1 == Step(EditTask(s, t).state, []);
    var r2 := Run(s, [EditClicked(t), DraftEdited(d)]);
    assert r2 == Step(r1.state.(currentTask := d), []);
    var r3 := Run(s, evs[..3]);
    assert r3 == Step(r2.state, [Update("1", d)]);
  }

  /** A failed save leaves the edit form open on the same draft. */
  lemma FailedSaveKeepsForm(s: State, message: string)
    ensures var failed: Reply<Task> := Delivered(ApiResponse(false, None, Some(message), None));
            && OnTaskSaved(SaveTask(s).state, failed) == Step(s, [])
            && OnTaskSaved(SaveTask(s).state, TransportError) == Step(s, [])
  {
  }

  /** Editing a task whose identifier is the empty string creates a new task
      instead of updating, because the empty string is falsy. */
  lemma EmptyIdEditCreates(s: State, t: Task)
    requires t.id == Some("")
    ensures SaveTask(EditTask(s, t).state).requests == [Create(t)]
  {
  }

  /** Declining the confirmation sends no delete and keeps the list. */
  lemma DeclinedDeleteScenario(s: State)
    ensures Run(s, [DeleteClicked("1", false)]) == Step(s, [])
  {
    assert [DeleteClicked("1", false)][..0] == [];
  }
}
