/**
 * The request handlers of app/api.py as operations of one application
 * state: the two tables, the id counter of `tasks`, the session and the
 * flashed messages.  Routing, templates and redirects become `Response`
 * values; `abort(401)` and `abort(404)` become `Abort(401)` and `Abort(404)`.
 */
module Api {

  import opened Wrappers
  import opened Passwords
  import opened Models
  import opened Board

  const UsernameTaken: string := "Username already existed!"
  const InvalidUsername: string := "Invalid username!"
  const LoggedIn: string := "Logged in successfully!"
  const IncorrectPassword: string := "Incorrect password!"
  const LoggedOut: string := "Logged out successfully!"

  /** What a handler answers with. */
  datatype Response =
    | RedirectToBoard
    | RedirectToLogin
    | SignupPage
    | BoardPage(toDo: seq<Task>, doing: seq<Task>, done: seq<Task>, user: string)
    | Abort(code: int)

  /** The `tasks` table with one row's status replaced (`task.status = status`). */
  function WithStatus(tasks: map<int, Task>, id: int, status: string): (r: map<int, Task>)
    requires id in tasks
    ensures r.Keys == tasks.Keys
    ensures r[id].status == status && r[id].id == tasks[id].id
    ensures r[id].username == tasks[id].username && r[id].task == tasks[id].task
    ensures forall k :: k in tasks && k != id ==> r[k] == tasks[k]
  {
    tasks[id := tasks[id].(status := status)]
  }

  /** Setting the same status twice is the same as setting it once. */
  lemma WithStatusIdempotent(tasks: map<int, Task>, id: int, status: string)
    requires id in tasks
    ensures WithStatus(WithStatus(tasks, id, status), id, status) == WithStatus(tasks, id, status)
  {
  }

  /** From a table that meets the enum constraint, a status change keeps it exactly when the new status is one of the three. */
  lemma WithStatusKeepsEnum(tasks: map<int, Task>, id: int, status: string)
    requires id in tasks && StatusesValid(tasks)
    ensures StatusesValid(WithStatus(tasks, id, status)) <==> IsStatus(status)
  {
  }

  class Kanban {
    var users: map<string, User>
    var tasks: map<int, Task>
    /** The id the next inserted task receives. */
    var nextId: int
    /** `session['username']`, when the key is present. */
    var session: Option<string>
    /** Messages passed to `flash`, oldest first. */
    var flashes: seq<string>

    /**
     * The schema's key and foreign-key constraints, ids below the counter,
     * and a session name that is always a registered user.  The enum
     * constraint on status is not part of it: `ChangeStatus` can break it.
     */
    ghost predicate Valid()
      reads this
      ensures Valid() ==> nextId !in tasks
    {
      && UsersKeyed(users)
      && TasksKeyed(tasks)
      && OwnersRegistered(tasks, users)
      && 1 <= nextId
      && (forall id :: id in tasks ==> 1 <= id < nextId)
      && (session.Some? ==> session.value in users)
    }

    /** The state after `db.create_all()` on an empty database, with a fresh session. */
    constructor ()
      ensures Valid() && StatusesValid(tasks)
      ensures users == map[] && tasks == map[] && nextId == 1
      ensures session == None && flashes == []
    {
      users, tasks, nextId := map[], map[], 1;
      session, flashes := None, [];
    }

    /**
     * `session.get('username')` read as a truth value: a missing key and an
     * empty name both mean that nobody is logged in.
     */
    function CurrentUser(): (u: Option<string>)
      reads this
      ensures u.Some? <==> session.Some? && session.value != ""
      ensures u.Some? ==> u == session
    {
      if session.Some? && session.value != "" then session else None
    }

    /** `query(Task).filter(Task.id == id).first()`. */
    function Find(id: int): (r: Option<Task>)
      reads this
      ensures r.Some? <==> id in tasks
      ensures r.Some? ==> r.value == tasks[id]
    {
      if id in tasks then Some(tasks[id]) else None
    }

    /** A row the board of `user` shows under `status`. */
    ghost predicate Shows(t: Task, user: string, status: string)
      reads this
    {
      t.id in tasks && tasks[t.id] == t && t.username == user && t.status == status
    }

    /** POST /signup (`create_user`). */
    method SignUp(username: string, password: string, randomSalt: nat) returns (resp: Response)
      requires Valid()
      modifies this
      ensures Valid()
      ensures username !in old(users) ==>
        && users == old(users)[username := User(username, SetPassword(password, username, randomSalt))]
        && |users| == |old(users)| + 1
        && Verify(password + username, users[username].password)
        && resp == RedirectToBoard && flashes == old(flashes)
      ensures username in old(users) ==>
        && users == old(users)
        && resp == SignupPage && flashes == old(flashes) + [UsernameTaken]
      ensures tasks == old(tasks) && nextId == old(nextId) && session == old(session)
      ensures StatusesValid(tasks) == old(StatusesValid(tasks))
    {
      if username !in users {
        users := users[username := User(username, SetPassword(password, username, randomSalt))];
        resp := RedirectToBoard;
      } else {
        flashes := flashes + [UsernameTaken];
        resp := SignupPage;
      }
    }

    /** POST /login (`login`). */
    method Login(username: string, password: string) returns (resp: Response)
      requires Valid()
      modifies this
      ensures Valid()
      ensures resp == RedirectToBoard
      ensures username !in old(users) ==>
        session == old(session) && flashes == old(flashes) + [InvalidUsername]
      ensures username in old(users) && Verify(password + username, old(users)[username].password) ==>
        session == Some(username) && flashes == old(flashes) + [LoggedIn]
      ensures username in old(users) && !Verify(password + username, old(users)[username].password) ==>
        session == old(session) && flashes == old(flashes) + [IncorrectPassword]
      ensures users == old(users) && tasks == old(tasks) && nextId == old(nextId)
      ensures StatusesValid(tasks) == old(StatusesValid(tasks))
    {
      var candidate := password + username;
      if username !in users {
        flashes := flashes + [InvalidUsername];
      } else if Verify(candidate, users[username].password) {
        session := Some(users[username].username);
        flashes := flashes + [LoggedIn];
      } else {
        flashes := flashes + [IncorrectPassword];
      }
      resp := RedirectToBoard;
    }

    /** GET /logout (`log_out`): succeeds whether or not anyone is logged in. */
    method Logout() returns (resp: Response)
      requires Valid()
      modifies this
      ensures Valid()
      ensures session == None && CurrentUser() == None
      ensures flashes == old(flashes) + [LoggedOut] && resp == RedirectToBoard
      ensures users == old(users) && tasks == old(tasks) && nextId == old(nextId)
      ensures StatusesValid(tasks) == old(StatusesValid(tasks))
    {
      session := None;
      flashes := flashes + [LoggedOut];
      resp := RedirectToBoard;
    }

    /** GET / (`index`): the logged-in user's board, or a redirect to the login page. */
    method Index() returns (resp: Response)
      requires Valid()
      ensures CurrentUser().None? <==> resp == RedirectToLogin
      ensures CurrentUser().Some? ==> resp.BoardPage? && resp.user == CurrentUser().value
      ensures resp.BoardPage? ==>
        && (forall t :: t in resp.toDo <==> Shows(t, resp.user, ToDo))
        && (forall t :: t in resp.doing <==> Shows(t, resp.user, Doing))
        && (forall t :: t in resp.done <==> Shows(t, resp.user, Done))
        && IdsAscending(resp.toDo) && IdsAscending(resp.doing) && IdsAscending(resp.done)
    {
      var current := CurrentUser();
      if current.None? {
        return RedirectToLogin;
      }
      var user := current.value;
      var mine := OwnedTasks(tasks, user, nextId);
      var toDo, doing, done := AssembleBoard(mine);
      resp := BoardPage(toDo, doing, done, user);
      forall t
        ensures t in toDo <==> Shows(t, user, ToDo)
        ensures t in doing <==> Shows(t, user, Doing)
        ensures t in done <==> Shows(t, user, Done)
      {
        BucketMember(mine, ToDo, t);
        BucketMember(mine, Doing, t);
        BucketMember(mine, Done, t);
      }
      BucketAscending(mine, ToDo);
      BucketAscending(mine, Doing);
      BucketAscending(mine, Done);
    }

    /** POST /add (`add`): a new `to_do` task owned by the logged-in user, under a fresh id. */
    method Add(text: string) returns (resp: Response)
      requires Valid()
      modifies this
      ensures Valid()
      ensures old(CurrentUser()).None? ==>
        resp == Abort(401) && tasks == old(tasks) && nextId == old(nextId)
      ensures old(CurrentUser()).Some? ==>
        && resp == RedirectToBoard
        && old(nextId) !in old(tasks)
        && tasks == old(tasks)[old(nextId) := Task(old(nextId), old(CurrentUser()).value, text, ToDo)]
        && nextId == old(nextId) + 1
      ensures users == old(users) && session == old(session) && flashes == old(flashes)
      ensures old(StatusesValid(tasks)) ==> StatusesValid(tasks)
    {
      var current := CurrentUser();
      if current.None? {
        return Abort(401);
      }
      var id := nextId;
      tasks := tasks[id := Task(id, current.value, text, ToDo)];
      nextId := nextId + 1;
      resp := RedirectToBoard;
    }

    /**
     * GET /task/<id>/<status> (`change_status`): any logged-in user may set
     * any task's status to any string; ownership is not checked.
     */
    method ChangeStatus(id: int, status: string) returns (resp: Response)
      requires Valid()
      modifies this
      ensures Valid()
      ensures old(CurrentUser()).None? ==> resp == Abort(401) && tasks == old(tasks)
      ensures old(CurrentUser()).Some? && id !in old(tasks) ==> resp == Abort(404) && tasks == old(tasks)
      ensures old(CurrentUser()).Some? && id in old(tasks) ==>
        resp == RedirectToBoard && tasks == WithStatus(old(tasks), id, status)
      ensures old(StatusesValid(tasks)) && resp == RedirectToBoard ==> (StatusesValid(tasks) <==> IsStatus(status))
      ensures users == old(users) && nextId == old(nextId) && session == old(session) && flashes == old(flashes)
    {
      if CurrentUser().None? {
        return Abort(401);
      }
      var task := Find(id);
      if task.None? {
        return Abort(404);
      }
      if StatusesValid(tasks) {
        WithStatusKeepsEnum(tasks, id, status);
      }
      tasks := WithStatus(tasks, id, status);
      resp := RedirectToBoard;
    }

    /**
     * GET, POST or DELETE /task/<id> (`delete`): any logged-in user may
     * delete any task; ownership is not checked.
     */
    method Delete(id: int) returns (resp: Response)
      requires Valid()
      modifies this
      ensures Valid()
      ensures old(CurrentUser()).None? ==> resp == Abort(401) && tasks == old(tasks)
      ensures old(CurrentUser()).Some? && id !in old(tasks) ==> resp == Abort(404) && tasks == old(tasks)
      ensures old(CurrentUser()).Some? && id in old(tasks) ==>
        resp == RedirectToBoard && tasks == old(tasks) - {id}
      ensures id !in tasks || resp == Abort(401)
      ensures old(StatusesValid(tasks)) ==> StatusesValid(tasks)
      ensures users == old(users) && nextId == old(nextId) && session == old(session) && flashes == old(flashes)
    {
      if CurrentUser().None? {
        return Abort(401);
      }
      var task := Find(id);
      if task.None? {
        return Abort(404);
      }
      tasks := tasks - {id};
      resp := RedirectToBoard;
    }
  }

}
