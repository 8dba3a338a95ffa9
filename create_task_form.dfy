/**
 * The form that creates a task (client/src/components/CreateTaskForm.tsx): it resets
 * the draft when mounted, stores the chosen board as a number, and its submit sends the
 * form data with the resolved assignee.
 */
module CreateTaskForm {
  import opened Wrappers
  import opened Api
  import opened TaskFormSlice
  import opened AssigneeLookup
  import EditTaskForm
  import BoardPage

  /** The status and priority options of this form's selects. */
  const StatusOptions := ["TODO", "IN_PROGRESS", "DONE"]

  const PriorityOptions := ["LOW", "MEDIUM", "HIGH"]

  /** `{ ...data, assignee: selectedUser || placeholder }`: the body of the create request. */
  function CreatePayload(data: FormState, users: Option<seq<User>>): (r: NewTask)
    ensures r.title == data.title && r.description == data.description && r.boardId == data.boardId
    ensures r.status == data.status && r.priority == data.priority
    ensures r.assignee == ResolveAssignee(users, data.assignee) && r.assignee.fullName == data.assignee
  {
    NewTask(data.title, data.description, data.status, data.priority,
            ResolveAssignee(users, data.assignee), data.boardId)
  }

  /** The task the server would hold for a create body once it assigns `id`. */
  function WithId(n: NewTask, id: int): (t: Task) {
    Task(id, n.title, n.description, n.status, n.priority, Some(n.assignee), n.boardId)
  }

  /** Both forms build the same body from the same form data; only the id differs. */
  lemma CreateAgreesWithEdit(data: FormState, users: Option<seq<User>>, id: int)
    ensures WithId(CreatePayload(data, users), id) == EditTaskForm.EditPayload(data, users, id)
  {
  }

  /**
   * None of this form's statuses names a board column, nor does the draft's initial status,
   * so a task created here shows in no column of its board; of the edit form's statuses
   * only "Done" does.
   */
  lemma StatusVocabulariesDisagree(t: Task)
    ensures t.status in StatusOptions ==> !BoardPage.InSomeColumn(t)
    ensures t.status == InitialState.status ==> !BoardPage.InSomeColumn(t)
    ensures t.status in EditTaskForm.StatusButtons ==> (BoardPage.InSomeColumn(t) <==> t.status == "Done")
  {
  }

  /** The mounted form: react-hook-form's values beside the redux draft. */
  class CreateForm {
    const store: FormStore
    /** The react-hook-form field values, which `onSubmit` receives as `data`. */
    var values: FormState

    /** `useForm({ defaultValues: formState })`. */
    constructor (store: FormStore)
      ensures this.store == store && values == store.state
    {
      this.store := store;
      values := store.state;
    }

    /**
     * The mount effect: `resetForm` empties the draft, then `reset(formState)` sets the
     * form values to the draft as it was read when the form rendered, before the reset.
     */
    method Mount()
      modifies this, store
      ensures store.state == InitialState
      ensures values == old(store.state)
    {
      var formState := store.state;
      store.Dispatch(ResetFormAction);
      values := formState;
    }

    /** Choosing a board: the select yields the board's numeric id and `Number` keeps it. */
    method ChooseBoard(value: int)
      modifies this, store
      ensures values == old(values).(boardId := value)
      ensures store.state == old(store.state).(boardId := value)
    {
      values := values.(boardId := value);
      store.Dispatch(UpdateFormAction(EmptyPatch.(boardId := Some(value))));
    }

    /** `onSubmit`: build the create request; on the server's success the draft is reset. */
    method Submit(users: Option<seq<User>>, succeeded: bool) returns (payload: NewTask)
      modifies store
      ensures payload == CreatePayload(values, users)
      ensures store.state == if succeeded then InitialState else old(store.state)
    {
      payload := CreatePayload(values, users);
      if succeeded {
        store.Dispatch(ResetFormAction);
      }
    }
  }
}
