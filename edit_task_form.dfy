/**
 * The edit form for an existing task (client/src/components/EditTaskForm.tsx): it
 * prefills the draft with the task, its status and priority buttons toggle, and its
 * submit sends the form data back under the task's id.
 */
module EditTaskForm {
  import opened Wrappers
  import opened Api
  import opened TaskFormSlice
  import opened AssigneeLookup

  /** The status buttons' values, a vocabulary of their own. */
  const StatusButtons := ["Backlog", "InProgress", "Done"]

  const PriorityButtons := ["Low", "Medium", "High"]

  /** A toggle button's press: `selected === v ? '' : v`. */
  function Toggle(selected: string, v: string): (r: string)
    ensures r == "" || r == v
    ensures r == "" <==> selected == v || v == ""
  {
    if selected == v then "" else v
  }

  /** Pressing a button twice from nothing selected ends with nothing selected. */
  lemma ToggleTwiceFromEmpty(v: string)
    ensures Toggle(Toggle("", v), v) == ""
  {
  }

  /** Two presses of the same button restore the selection exactly when it was that button or nothing. */
  lemma ToggleTwice(selected: string, v: string)
    ensures Toggle(Toggle(selected, v), v) == selected <==> selected == v || selected == ""
  {
  }

  /** The record the prefill writes: the task's fields, with the assignee's name; `None` where reading `task.assignee.fullName` throws. */
  function PrefillPatch(task: Task): (p: Option<FormPatch>)
    ensures p.Some? <==> task.assignee.Some?
    ensures p.Some? ==> forall s :: UpdateForm(s, p.value) == FormState(task.title, task.description, task.status,
                                                                          task.priority, task.assignee.value.fullName, task.boardId)
  {
    if task.assignee.None? then None
    else Some(FormPatch(Some(task.title), Some(task.description), Some(task.status), Some(task.priority),
                        Some(task.assignee.value.fullName), Some(task.boardId)))
  }

  /** `{ ...data, assignee: selectedUser, id: task.id }`: the body of the update request. */
  function EditPayload(data: FormState, users: Option<seq<User>>, taskId: int): (r: Task)
    ensures r.id == taskId
    ensures r.title == data.title && r.description == data.description && r.boardId == data.boardId
    ensures r.status == data.status && r.priority == data.priority
    ensures r.assignee == Some(ResolveAssignee(users, data.assignee)) && r.assignee.value.fullName == data.assignee
  {
    Task(taskId, data.title, data.description, data.status, data.priority,
         Some(ResolveAssignee(users, data.assignee)), data.boardId)
  }

  /**
   * Submitting a prefilled form without touching it sends the task back unchanged,
   * provided the loaded users resolve its assignee's name to that same assignee.
   */
  lemma UntouchedSubmitRoundTrip(task: Task, users: Option<seq<User>>, s: FormState)
    requires task.assignee.Some? && ResolveAssignee(users, task.assignee.value.fullName) == task.assignee.value
    ensures EditPayload(UpdateForm(s, PrefillPatch(task).value), users, task.id) == task
  {
  }

  /** The mounted form: react-hook-form's values beside the redux draft. */
  class EditForm {
    const store: FormStore
    const task: Task
    /** The react-hook-form field values, which `onSubmit` receives as `data`. */
    var values: FormState

    /** `useForm({ defaultValues: formState })`. */
    constructor (store: FormStore, task: Task)
      ensures this.store == store && this.task == task && values == store.state
    {
      this.store := store;
      this.task := task;
      values := store.state;
    }

    /**
     * The effect on `[task]`: dispatch the task's fields into the draft and set every form
     * value. Without an assignee, reading `task.assignee.fullName` throws first and nothing changes.
     */
    method Prefill() returns (ok: bool)
      modifies this, store
      ensures ok <==> task.assignee.Some?
      ensures ok ==> store.state == values
                     == FormState(task.title, task.description, task.status, task.priority,
                                  task.assignee.value.fullName, task.boardId)
      ensures !ok ==> store.state == old(store.state) && values == old(values)
    {
      var patch := PrefillPatch(task);
      if patch.None? {
        return false;
      }
      store.Dispatch(UpdateFormAction(patch.value));
      values := values.(title := task.title, description := task.description, status := task.status);
      values := values.(priority := task.priority, assignee := task.assignee.value.fullName, boardId := task.boardId);
      ok := true;
    }

    /** A press of the status button `v`: the form value and the draft both take the toggled value. */
    method PressStatus(v: string)
      requires v in StatusButtons
      modifies this, store
      ensures values == old(values).(status := Toggle(old(values).status, v))
      ensures store.state == old(store.state).(status := Toggle(old(values).status, v))
    {
      var newValue := Toggle(values.status, v);
      values := values.(status := newValue);
      store.Dispatch(UpdateFormAction(EmptyPatch.(status := Some(newValue))));
    }

    /** A press of the priority button `v`, by the same rule. */
    method PressPriority(v: string)
      requires v in PriorityButtons
      modifies this, store
      ensures values == old(values).(priority := Toggle(old(values).priority, v))
      ensures store.state == old(store.state).(priority := Toggle(old(values).priority, v))
    {
      var newValue := Toggle(values.priority, v);
      values := values.(priority := newValue);
      store.Dispatch(UpdateFormAction(EmptyPatch.(priority := Some(newValue))));
    }

    /**
     * `onSubmit`: build the update request from the form values; when the server
     * reports success (`succeeded`), the draft is reset.
     */
    method Submit(users: Option<seq<User>>, succeeded: bool) returns (payload: Task)
      modifies store
      ensures payload == EditPayload(values, users, task.id)
      ensures store.state == if succeeded then InitialState else old(store.state)
    {
      payload := EditPayload(values, users, task.id);
      if succeeded {
        store.Dispatch(ResetFormAction);
      }
    }
  }
}
