/**
 * The two tables of app/models.py as row datatypes, and the column
 * constraints of their schema as predicates over the tables.
 * Non-null columns (User.password, Task.task) are non-null by their Dafny types.
 */
module Models {

  import opened Passwords

  /** A row of `users`; `username` is the primary key. */
  datatype User = User(username: string, password: Digest)

  /** A row of `tasks`; `id` is the primary key, `username` refers to `users`. */
  datatype Task = Task(id: int, username: string, task: string, status: string)

  /** The three values of the `status` enum column. */
  const ToDo: string := "to_do"
  const Doing: string := "doing"
  const Done: string := "done"

  /** One of the enum's values; the three are distinct, so a valid status is exactly one of them. */
  predicate IsStatus(s: string)
    ensures IsStatus(s) ==>
      (if s == ToDo then 1 else 0) + (if s == Doing then 1 else 0) + (if s == Done then 1 else 0) == 1
  {
    s == ToDo || s == Doing || s == Done
  }

  /** Primary key of `users`: the table is keyed by each row's own username, so there is one row per name. */
  ghost predicate UsersKeyed(users: map<string, User>)
    ensures UsersKeyed(users) ==>
      forall a, b :: a in users && b in users && users[a].username == users[b].username ==> a == b
  {
    forall name :: name in users ==> users[name].username == name
  }

  /** Primary key of `tasks`: the table is keyed by each row's own id. */
  ghost predicate TasksKeyed(tasks: map<int, Task>)
    ensures TasksKeyed(tasks) ==>
      forall a, b :: a in tasks && b in tasks && tasks[a].id == tasks[b].id ==> a == b
  {
    forall id :: id in tasks ==> tasks[id].id == id
  }

  /** Foreign key `tasks.username -> users.username`. */
  ghost predicate OwnersRegistered(tasks: map<int, Task>, users: map<string, User>)
  {
    forall id :: id in tasks ==> tasks[id].username in users
  }

  /** Users are never deleted, so a growing `users` table keeps every owner registered. */
  lemma OwnersStayRegistered(tasks: map<int, Task>, users: map<string, User>, name: string, user: User)
    requires OwnersRegistered(tasks, users)
    ensures OwnersRegistered(tasks, users[name := user])
  {
  }

  /** The enum constraint on `tasks.status`. */
  ghost predicate StatusesValid(tasks: map<int, Task>)
  {
    forall id :: id in tasks ==> IsStatus(tasks[id].status)
  }

  /** A row inserted as `to_do` keeps the enum constraint. */
  lemma InsertToDoKeepsEnum(tasks: map<int, Task>, id: int, owner: string, text: string)
    requires StatusesValid(tasks)
    ensures StatusesValid(tasks[id := Task(id, owner, text, ToDo)])
  {
  }

}
