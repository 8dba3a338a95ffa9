/**
 * One board's page (client/src/pages/BoardPage.tsx): the board picked by the route id,
 * the board's tasks split into three status columns, and the "open this task" hint
 * carried by navigation from the task list.
 */
module BoardPage {
  import opened Wrappers
  import opened Api
  import opened Seqs

  const ToDo := "To do"
  const InProgress := "In progress"
  const Done := "Done"

  /** `parseInt(boardId || '0')`, with the route parameter already parsed; missing means 0. */
  function RouteBoardId(param: Option<int>): (id: int)
    ensures param.None? ==> id == 0
    ensures param.Some? ==> id == param.value
  {
    param.GetOr(0)
  }

  /** `board`: the first loaded board whose id is the route id, if any. */
  function SelectedBoard(boards: Option<seq<Board>>, param: Option<int>): (r: Option<Board>)
    ensures boards.None? ==> r.None?
    ensures boards.Some? && r.None? ==> forall b :: b in boards.value ==> b.id != RouteBoardId(param)
    ensures r.Some? ==> boards.Some? && exists i :: IsFirstMatch((b: Board) => b.id == RouteBoardId(param), boards.value, i)
                                                  && boards.value[i] == r.value
    ensures r.Some? ==> r.value.id == RouteBoardId(param)
  {
    match boards
    case None => None
    case Some(bs) => Find((b: Board) => b.id == RouteBoardId(param), bs)
  }

  /** `boardTasks`: the loaded tasks of the route's board, in list order. */
  function BoardTasks(tasks: Option<seq<Task>>, param: Option<int>): (r: seq<Task>)
    ensures tasks.None? ==> r == []
    ensures tasks.Some? ==> IsSubsequence(r, tasks.value)
    ensures forall t :: t in r <==> tasks.Some? && t in tasks.value && t.boardId == RouteBoardId(param)
  {
    match tasks
    case None => []
    case Some(ts) => Filter((t: Task) => t.boardId == RouteBoardId(param), ts)
  }

  /** No board task is lost or duplicated: each keeps its multiplicity in the loaded list. */
  lemma BoardTasksCounts(ts: seq<Task>, param: Option<int>)
    ensures forall t ::
      multiset(BoardTasks(Some(ts), param))[t] == if t.boardId == RouteBoardId(param) then multiset(ts)[t] else 0
  {
    FilterCounts((t: Task) => t.boardId == RouteBoardId(param), ts);
  }

  predicate HasStatus(status: string, t: Task) {
    t.status == status
  }

  predicate InSomeColumn(t: Task) {
    t.status == ToDo || t.status == InProgress || t.status == Done
  }

  /** One column: the board tasks whose status is exactly `status`, in order. */
  function Column(boardTasks: seq<Task>, status: string): (r: seq<Task>)
    ensures IsSubsequence(r, boardTasks)
    ensures forall t :: t in r <==> t in boardTasks && t.status == status
  {
    Filter(t => HasStatus(status, t), boardTasks)
  }

  /** A column keeps every board task of its status as often as the board has it. */
  lemma ColumnCounts(boardTasks: seq<Task>, status: string)
    ensures forall t ::
      multiset(Column(boardTasks, status))[t] == if t.status == status then multiset(boardTasks)[t] else 0
  {
    FilterCounts(t => HasStatus(status, t), boardTasks);
  }

  /** The board tasks whose status names none of the three columns. */
  function Unshown(boardTasks: seq<Task>): (r: seq<Task>) {
    Filter((t: Task) => !InSomeColumn(t), boardTasks)
  }

  /** No task is in two columns. */
  lemma ColumnsDisjoint(boardTasks: seq<Task>, t: Task)
    ensures !(t in Column(boardTasks, ToDo) && t in Column(boardTasks, InProgress))
    ensures !(t in Column(boardTasks, ToDo) && t in Column(boardTasks, Done))
    ensures !(t in Column(boardTasks, InProgress) && t in Column(boardTasks, Done))
  {
  }

  /** Each board task is counted exactly once: in its column, or among the unshown. */
  lemma {:induction false} ColumnAccounting(boardTasks: seq<Task>)
    ensures |Column(boardTasks, ToDo)| + |Column(boardTasks, InProgress)| + |Column(boardTasks, Done)|
            + |Unshown(boardTasks)| == |boardTasks|
    decreases |boardTasks|
  {
    if boardTasks != [] {
      ColumnAccounting(boardTasks[1..]);
    }
  }

  /**
   * The columns hold at most all the board tasks, and all of them exactly when every
   * board task's status is one of the three column names.
   */
  lemma ColumnsCover(boardTasks: seq<Task>)
    ensures |Column(boardTasks, ToDo)| + |Column(boardTasks, InProgress)| + |Column(boardTasks, Done)| <= |boardTasks|
    ensures |Column(boardTasks, ToDo)| + |Column(boardTasks, InProgress)| + |Column(boardTasks, Done)| == |boardTasks|
            <==> forall t :: t in boardTasks ==> t.status == ToDo || t.status == InProgress || t.status == Done
  {
    ColumnAccounting(boardTasks);
    var u := Unshown(boardTasks);
    if u != [] {
      assert u[0] in u;
    }
  }

  /** A task of another board, or with any other status ("Backlog", "TODO", …), is in no column. */
  lemma NotShown(tasks: Option<seq<Task>>, param: Option<int>, t: Task)
    requires t.boardId != RouteBoardId(param) || (t.status != ToDo && t.status != InProgress && t.status != Done)
    ensures t !in Column(BoardTasks(tasks, param), ToDo)
    ensures t !in Column(BoardTasks(tasks, param), InProgress)
    ensures t !in Column(BoardTasks(tasks, param), Done)
  {
  }

  /** A column is exactly the loaded tasks of the board with that status, in list order. */
  lemma ColumnOfLoadedTasks(ts: seq<Task>, param: Option<int>, status: string)
    ensures Column(BoardTasks(Some(ts), param), status)
            == Filter((t: Task) => t.boardId == RouteBoardId(param) && t.status == status, ts)
  {
    FilterConjunction((t: Task) => t.boardId == RouteBoardId(param), (t: Task) => HasStatus(status, t),
                      (t: Task) => t.boardId == RouteBoardId(param) && t.status == status, ts);
  }

  /**
   * The outcome of the `openTaskId` effect: a truthy hint names the first board task with
   * that id, which becomes the open task; otherwise the open task stays as it was.
   */
  function NextOpenTask(current: Option<Task>, hint: Option<int>, boardTasks: seq<Task>): (r: Option<Task>)
    ensures (hint.None? || hint.value == 0) ==> r == current
    ensures hint.Some? && hint.value != 0 && (forall t :: t in boardTasks ==> t.id != hint.value) ==> r == current
    ensures hint.Some? && hint.value != 0 && r != current ==> r.Some? && r.value in boardTasks
    ensures forall i :: hint.Some? && hint.value != 0 && IsFirstMatch((t: Task) => t.id == hint.value, boardTasks, i)
                        ==> r == Some(boardTasks[i])
  {
    if hint.Some? && hint.value != 0 then
      match Find((t: Task) => t.id == hint.value, boardTasks)
      case Some(t) => Some(t)
      case None => current
    else current
  }

  /**
   * The effect runs after every render, and the hint stays in the location state, so a
   * run after a close opens the hinted task again: closing it does not stick.
   */
  lemma HintReopensAfterClose(boardTasks: seq<Task>, h: Task)
    requires h in boardTasks && h.id != 0
    ensures NextOpenTask(None, Some(h.id), boardTasks).Some?
    ensures NextOpenTask(None, Some(h.id), boardTasks).value.id == h.id
  {
  }

  /** Likewise a task opened by a click is replaced by the hinted one on the next run. */
  lemma HintOverridesClick(boardTasks: seq<Task>, h: Task, clicked: Task)
    requires h in boardTasks && h.id != 0 && clicked.id != h.id
    ensures NextOpenTask(Some(clicked), Some(h.id), boardTasks) != Some(clicked)
  {
  }

  /**
   * A hint used once: the effect opens the hinted task the first time the board has it
   * and records that the hint is spent; a spent hint leaves the open task alone.
   * The result is the new open task and whether the hint is spent.
   */
  function NextOpenTaskOnce(current: Option<Task>, spent: bool, hint: Option<int>, boardTasks: seq<Task>)
    : (r: (Option<Task>, bool))
    ensures spent ==> r == (current, true)
    ensures !spent ==> r.0 == NextOpenTask(current, hint, boardTasks)
    ensures !spent ==> (r.1 <==> hint.Some? && hint.value != 0 && exists t :: t in boardTasks && t.id == hint.value)
  {
    if spent then (current, true)
    else if hint.Some? && hint.value != 0 then
      match Find((t: Task) => t.id == hint.value, boardTasks)
      case Some(t) => (Some(t), true)
      case None => (current, false)
    else (current, false)
  }

  /** `runs` successive runs of the used-once effect from `state`. */
  function RunHintOnce(state: (Option<Task>, bool), hint: Option<int>, boardTasks: seq<Task>, runs: nat)
    : (r: (Option<Task>, bool))
    decreases runs
  {
    if runs == 0 then state
    else
      var prev := RunHintOnce(state, hint, boardTasks, runs - 1);
      NextOpenTaskOnce(prev.0, prev.1, hint, boardTasks)
  }

  /** Unspent, one run with the hinted task on the board opens it and spends the hint. */
  lemma OnceHintOpens(current: Option<Task>, h: Task, boardTasks: seq<Task>)
    requires h in boardTasks && h.id != 0
    ensures NextOpenTaskOnce(current, false, Some(h.id), boardTasks).1
    ensures NextOpenTaskOnce(current, false, Some(h.id), boardTasks).0.Some?
    ensures NextOpenTaskOnce(current, false, Some(h.id), boardTasks).0.value.id == h.id
  {
  }

  /**
   * With a hint used once, whatever is open after the hint is spent (nothing, after a
   * close, or the task of a click) stays open through any number of further runs.
   */
  lemma {:induction false} SpentHintLeavesOpenTask(current: Option<Task>, hint: Option<int>, boardTasks: seq<Task>, runs: nat)
    ensures RunHintOnce((current, true), hint, boardTasks, runs) == (current, true)
    decreases runs
  {
    if runs > 0 {
      SpentHintLeavesOpenTask(current, hint, boardTasks, runs - 1);
    }
  }

  /** The page's own state: the task whose edit form is open. */
  class BoardView {
    var openTask: Option<Task>

    constructor ()
      ensures openTask == None
    {
      openTask := None;
    }

    /** The effect on `[state, boardTasks]`: open the hinted task when the board has it. */
    method ApplyOpenTaskHint(hint: Option<int>, boardTasks: seq<Task>)
      modifies this
      ensures openTask == NextOpenTask(old(openTask), hint, boardTasks)
    {
      if hint.Some? && hint.value != 0 {
        var taskToOpen := Find((t: Task) => t.id == hint.value, boardTasks);
        if taskToOpen.Some? {
          openTask := taskToOpen;
        }
      }
    }

    /**
     * `handleClose` and the render it causes: the effect runs again with the hint still
     * set, so the hinted task, when the board has it, is open once more.
     */
    method CloseThenRender(hint: Option<int>, boardTasks: seq<Task>)
      modifies this
      ensures openTask == NextOpenTask(None, hint, boardTasks)
    {
      Close();
      ApplyOpenTaskHint(hint, boardTasks);
    }

    /** `handleTaskClick`. */
    method TaskClick(t: Task)
      modifies this
      ensures openTask == Some(t)
    {
      openTask := Some(t);
    }

    /** `handleClose`; the cache invalidation it also requests is not modelled. */
    method Close()
      modifies this
      ensures openTask == None
    {
      openTask := None;
    }
  }
}
