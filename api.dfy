/** The records the REST API exchanges with the client (client/src/api/tasks.ts, boards.ts). */
module Api {
  import opened Wrappers

  datatype User = User(id: int, fullName: string, email: string, avatarUrl: string)

  /**
   * A task as the client holds it. `status` and `priority` stay free strings:
   * the pages and forms of the client use three vocabularies that do not agree.
   * `assignee` is declared non-null by the API type, but the task list reads it
   * with `?.`, so a missing assignee is part of the model.
   */
  datatype Task = Task(
    id: int,
    title: string,
    description: string,
    status: string,
    priority: string,
    assignee: Option<User>,
    boardId: int)

  /** The body of a create request: a task without its server-assigned id. */
  datatype NewTask = NewTask(
    title: string,
    description: string,
    status: string,
    priority: string,
    assignee: User,
    boardId: int)

  datatype Board = Board(id: int, name: string, description: string, taskCount: int)
}
