/**
 * How both task forms turn the assignee name typed in the form into the user sent to
 * the server (client/src/components/EditTaskForm.tsx:52-57, CreateTaskForm.tsx:34-37).
 */
module AssigneeLookup {
  import opened Wrappers
  import opened Api
  import opened Seqs

  /** The stand-in user a submit sends when no loaded user has the name. */
  function Placeholder(name: string): (u: User) {
    User(0, name, "", "")
  }

  predicate Named(name: string, u: User) {
    u.fullName == name
  }

  /**
   * `users?.find(user => user.fullName === name) || placeholder`: the first loaded user
   * with exactly that name, otherwise the placeholder; either way the name is kept.
   */
  function ResolveAssignee(users: Option<seq<User>>, name: string): (u: User)
    ensures u.fullName == name
    ensures users.Some? && (exists v :: v in users.value && v.fullName == name)
            ==> u in users.value && exists i :: IsFirstMatch((v: User) => Named(name, v), users.value, i) && users.value[i] == u
    ensures users.None? || (forall v :: v in users.value ==> v.fullName != name) ==> u == Placeholder(name)
  {
    match users
    case None => Placeholder(name)
    case Some(us) =>
      match Find((v: User) => Named(name, v), us)
      case Some(v) => v
      case None => Placeholder(name)
  }
}
