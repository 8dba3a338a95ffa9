/**
 * The redux slice holding the draft of the task form (client/src/store/taskFormSlice.ts)
 * and the store that components dispatch its two actions into.
 */
module TaskFormSlice {
  import opened Wrappers

  datatype FormState = FormState(
    title: string,
    description: string,
    status: string,
    priority: string,
    assignee: string,
    boardId: int)

  /** `Partial<TaskFormState>`: a field is present exactly when it is `Some`. */
  datatype FormPatch = FormPatch(
    title: Option<string>,
    description: Option<string>,
    status: Option<string>,
    priority: Option<string>,
    assignee: Option<string>,
    boardId: Option<int>)

  const InitialState := FormState("", "", "TODO", "LOW", "", 0)

  const EmptyPatch := FormPatch(None, None, None, None, None, None)

  /** The `updateForm` reducer: `{ ...state, ...payload }`. */
  function UpdateForm(s: FormState, p: FormPatch): (r: FormState)
    ensures p.title.Some? ==> r.title == p.title.value
    ensures p.description.Some? ==> r.description == p.description.value
    ensures p.status.Some? ==> r.status == p.status.value
    ensures p.priority.Some? ==> r.priority == p.priority.value
    ensures p.assignee.Some? ==> r.assignee == p.assignee.value
    ensures p.boardId.Some? ==> r.boardId == p.boardId.value
    ensures p.title.None? ==> r.title == s.title
    ensures p.description.None? ==> r.description == s.description
    ensures p.status.None? ==> r.status == s.status
    ensures p.priority.None? ==> r.priority == s.priority
    ensures p.assignee.None? ==> r.assignee == s.assignee
    ensures p.boardId.None? ==> r.boardId == s.boardId
  {
    FormState(
      p.title.GetOr(s.title),
      p.description.GetOr(s.description),
      p.status.GetOr(s.status),
      p.priority.GetOr(s.priority),
      p.assignee.GetOr(s.assignee),
      p.boardId.GetOr(s.boardId))
  }

  /** The `resetForm` reducer. */
  function ResetForm(s: FormState): (r: FormState)
    ensures r == InitialState
  {
    InitialState
  }

  /** `{ ...p, ...q }` on two payloads: a field of `q` wins over the same field of `p`. */
  function Merge(p: FormPatch, q: FormPatch): (m: FormPatch) {
    FormPatch(
      if q.title.Some? then q.title else p.title,
      if q.description.Some? then q.description else p.description,
      if q.status.Some? then q.status else p.status,
      if q.priority.Some? then q.priority else p.priority,
      if q.assignee.Some? then q.assignee else p.assignee,
      if q.boardId.Some? then q.boardId else p.boardId)
  }

  /** An empty payload changes nothing. */
  lemma UpdateEmptyIsIdentity(s: FormState)
    ensures UpdateForm(s, EmptyPatch) == s
  {
  }

  /** Dispatching the same payload twice is dispatching it once. */
  lemma UpdateIdempotent(s: FormState, p: FormPatch)
    ensures UpdateForm(UpdateForm(s, p), p) == UpdateForm(s, p)
  {
  }

  /** Two successive updates are one update with their merge, the later payload winning. */
  lemma UpdateCompose(s: FormState, p: FormPatch, q: FormPatch)
    ensures UpdateForm(UpdateForm(s, p), q) == UpdateForm(s, Merge(p, q))
  {
  }

  /** A payload that names every field determines the new state alone. */
  lemma UpdateFullPatch(s1: FormState, s2: FormState, p: FormPatch)
    requires p.title.Some? && p.description.Some? && p.status.Some?
    requires p.priority.Some? && p.assignee.Some? && p.boardId.Some?
    ensures UpdateForm(s1, p) == UpdateForm(s2, p)
  {
  }

  datatype Action = UpdateFormAction(payload: FormPatch) | ResetFormAction

  /** The slice reducer: what the store's state becomes on an action. */
  function Reduce(s: FormState, a: Action): (r: FormState)
    ensures a.ResetFormAction? ==> r == InitialState
    ensures a.UpdateFormAction? ==> r == UpdateForm(s, a.payload)
  {
    match a
    case UpdateFormAction(p) => UpdateForm(s, p)
    case ResetFormAction => ResetForm(s)
  }

  /** `resetForm` discards whatever was in the draft, down to the initial record. */
  lemma ResetDiscardsDraft(s: FormState, p: FormPatch)
    ensures Reduce(Reduce(s, UpdateFormAction(p)), ResetFormAction) == InitialState
    ensures Reduce(s, ResetFormAction) == Reduce(InitialState, ResetFormAction)
    ensures InitialState.status == "TODO" && InitialState.priority == "LOW" && InitialState.boardId == 0
  {
  }

  /** The redux store, reduced to the `taskForm` slice. */
  class FormStore {
    var state: FormState

    constructor ()
      ensures state == InitialState
    {
      state := InitialState;
    }

    method Dispatch(a: Action)
      modifies this
      ensures state == Reduce(old(state), a)
    {
      state := Reduce(state, a);
    }
  }
}
