/** Which navigation button the header underlines (client/src/components/Header.tsx). */
module Header {
  import opened Text

  /** `pathname.startsWith('/boards') || pathname.startsWith('/board')`. */
  predicate IsBoardsPage(path: string): (r: bool)
    ensures r <==> StartsWith(path, "/board")
  {
    StartsWith(path, "/boards") || StartsWith(path, "/board")
  }

  /** `pathname === '/tasks'`. */
  predicate IsTasksPage(path: string) {
    path == "/tasks"
  }

  /** The `/boards` test is subsumed: a boards page is any path under the prefix `/board`. */
  lemma BoardsPageIsBoardPrefix(path: string)
    ensures IsBoardsPage(path) <==> |path| >= 6 && path[..6] == "/board"
  {
  }

  /** Only the exact path is the tasks page. */
  lemma TasksPageIsExact()
    ensures !IsTasksPage("/tasks/1") && !IsTasksPage("/tasks/")
  {
  }

  /** The two buttons are never underlined together. */
  lemma NeverBoth(path: string)
    ensures !(IsBoardsPage(path) && IsTasksPage(path))
  {
    if IsTasksPage(path) {
      BoardsPageIsBoardPrefix(path);
      assert path[..6][1] == 't';
    }
  }

  /** Paths of neither kind underline nothing; `/boardgames` counts as a boards page. */
  lemma HeaderExamples()
    ensures !IsBoardsPage("/") && !IsTasksPage("/")
    ensures !IsBoardsPage("/bo") && !IsTasksPage("/bo")
    ensures IsBoardsPage("/boards/3") && IsBoardsPage("/boardgames")
  {
  }
}
