/**
 * The "all tasks" page (client/src/pages/TasksPage.tsx): the task list shown is the
 * loaded list filtered by four optional criteria, all of which must hold.
 */
module TasksPage {
  import opened Wrappers
  import opened Api
  import opened Seqs
  import opened Text

  /** The board filter, `number | ''`; both `''` and `0` are falsy and impose nothing. */
  datatype BoardFilter = AnyBoard | OnBoard(id: int)

  datatype Filters = Filters(status: string, board: BoardFilter, title: string, assignee: string)

  const NoFilters := Filters("", AnyBoard, "", "")

  predicate BoardFilterSet(b: BoardFilter) {
    b.OnBoard? && b.id != 0
  }

  /** No criterion is set: every filter value is falsy. */
  predicate Unset(f: Filters) {
    f.status == "" && !BoardFilterSet(f.board) && f.title == "" && f.assignee == ""
  }

  predicate MatchesStatus(f: Filters, t: Task) {
    f.status == "" || t.status == f.status
  }

  predicate MatchesBoard(f: Filters, t: Task) {
    !BoardFilterSet(f.board) || t.boardId == f.board.id
  }

  predicate MatchesTitle(f: Filters, t: Task) {
    f.title == "" || Includes(Lower(t.title), Lower(f.title))
  }

  /** `task.assignee?.fullName?.toLowerCase().includes(...)`: no assignee, no match. */
  predicate MatchesAssignee(f: Filters, t: Task) {
    f.assignee == "" || (t.assignee.Some? && Includes(Lower(t.assignee.value.fullName), Lower(f.assignee)))
  }

  predicate Keep(f: Filters, t: Task) {
    MatchesStatus(f, t) && MatchesBoard(f, t) && MatchesTitle(f, t) && MatchesAssignee(f, t)
  }

  /** `filteredTasks`; `tasks` is `None` while the list is not loaded. */
  function FilteredTasks(tasks: Option<seq<Task>>, f: Filters): (r: seq<Task>)
    ensures tasks.None? ==> r == []
    ensures tasks.Some? ==> IsSubsequence(r, tasks.value)
    ensures forall t :: t in r <==>
      tasks.Some? && t in tasks.value &&
      (f.status != "" ==> t.status == f.status) &&
      (BoardFilterSet(f.board) ==> t.boardId == f.board.id) &&
      (f.title != "" ==> exists i :: OccursAt(Lower(t.title), Lower(f.title), i)) &&
      (f.assignee != "" ==>
         t.assignee.Some? && exists i :: OccursAt(Lower(t.assignee.value.fullName), Lower(f.assignee), i))
  {
    match tasks
    case None => []
    case Some(ts) => Filter(t => Keep(f, t), ts)
  }

  /** A shown task is shown as often as it occurs in the loaded list. */
  lemma ShownWithMultiplicity(ts: seq<Task>, f: Filters)
    ensures forall t :: multiset(FilteredTasks(Some(ts), f))[t] == if Keep(f, t) then multiset(ts)[t] else 0
  {
    FilterCounts(t => Keep(f, t), ts);
  }

  /** With no criterion set, the loaded list is shown unchanged and in order. */
  lemma UnsetShowsAll(ts: seq<Task>, f: Filters)
    requires Unset(f)
    ensures FilteredTasks(Some(ts), f) == ts
  {
    FilterAllTrue(t => Keep(f, t), ts);
  }

  /** Filtering the shown list again with the same criteria shows the same list. */
  lemma FilteredTasksIdempotent(ts: seq<Task>, f: Filters)
    ensures FilteredTasks(Some(FilteredTasks(Some(ts), f)), f) == FilteredTasks(Some(ts), f)
  {
    FilterIdempotent(t => Keep(f, t), ts);
  }

  /** Changing the letter case of the title or assignee search never changes the list. */
  lemma SearchIgnoresCase(ts: seq<Task>, f: Filters, title: string, assignee: string)
    requires Lower(title) == Lower(f.title) && Lower(assignee) == Lower(f.assignee)
    ensures FilteredTasks(Some(ts), f.(title := title, assignee := assignee)) == FilteredTasks(Some(ts), f)
  {
    var g := f.(title := title, assignee := assignee);
    LowerKeepsLength(title);
    LowerKeepsLength(f.title);
    LowerKeepsLength(assignee);
    LowerKeepsLength(f.assignee);
    FilterCongruence(t => Keep(g, t), t => Keep(f, t), ts);
  }

  /** A non-empty assignee search hides every task without an assignee. */
  lemma AssigneeSearchHidesUnassigned(ts: seq<Task>, f: Filters, t: Task)
    requires f.assignee != "" && t.assignee.None?
    ensures t !in FilteredTasks(Some(ts), f)
  {
  }

  /** The scenario of a status filter "Done" over a Backlog and a Done task. */
  lemma StatusFilterScenario(a: Task, b: Task)
    requires a.status == "Backlog" && b.status == "Done"
    ensures FilteredTasks(Some([a, b]), NoFilters.(status := "Done")) == [b]
  {
    var f := NoFilters.(status := "Done");
    var r := FilteredTasks(Some([a, b]), f);
    ShownWithMultiplicity([a, b], f);
    assert !Keep(f, a) && Keep(f, b);
    assert multiset(r) == multiset{b} by {
      forall t ensures multiset(r)[t] == multiset{b}[t] {
        assert multiset([a, b])[t] == multiset{a}[t] + multiset{b}[t];
      }
    }
    assert |r| == 1;
    assert r[0] in r;
  }
}
