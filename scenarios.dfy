/**
 * The cases of test.py, and a few the handlers allow that it does not try,
 * as client code over a fresh application: each one's contract is what
 * callers can prove from the handlers' contracts alone.
 */
module Scenarios {

  import opened Wrappers
  import opened Passwords
  import opened Models
  import opened Board
  import opened Api

  /** An id-ordered list that holds exactly one task holds only that task. */
  lemma {:induction false} OnlyTask(s: seq<Task>, t: Task)
    requires IdsAscending(s)
    requires forall x :: x in s <==> x == t
    ensures s == [t]
  {
    assert t in s;
    forall i | 0 <= i < |s|
      ensures s[i] == t
    {
      assert s[i] in s;
    }
    assert |s| > 1 ==> s[0].id < s[1].id;
  }

  /** A list that holds nothing is empty. */
  lemma {:induction false} NoTask(s: seq<Task>)
    requires forall x :: x !in s
    ensures s == []
  {
    forall x
      ensures multiset(s)[x] == 0
    {
      assert x !in s;
    }
    assert multiset(s) == multiset{};
  }

  /** The board of `user` when the table holds the single row `t`, owned by `user`. */
  lemma SingleRowBoard(k: Kanban, user: string, t: Task, resp: Response)
    requires k.tasks == map[t.id := t] && t.username == user
    requires resp.BoardPage? && resp.user == user
    requires forall x :: x in resp.toDo <==> k.Shows(x, user, ToDo)
    requires forall x :: x in resp.doing <==> k.Shows(x, user, Doing)
    requires forall x :: x in resp.done <==> k.Shows(x, user, Done)
    requires IdsAscending(resp.toDo) && IdsAscending(resp.doing) && IdsAscending(resp.done)
    ensures resp.toDo == (if t.status == ToDo then [t] else [])
    ensures resp.doing == (if t.status == Doing then [t] else [])
    ensures resp.done == (if t.status == Done then [t] else [])
  {
    if t.status == ToDo { OnlyTask(resp.toDo, t); } else { NoTask(resp.toDo); }
    if t.status == Doing { OnlyTask(resp.doing, t); } else { NoTask(resp.doing); }
    if t.status == Done { OnlyTask(resp.done, t); } else { NoTask(resp.done); }
  }

  /**
   * From any state, signing up under a free name and then logging in with
   * the same password logs that name in: signup hashes password+username,
   * and login verifies the same concatenation.
   */
  method SignUpThenLogIn(k: Kanban, username: string, password: string, randomSalt: nat)
    returns (signup: Response, login: Response)
    requires k.Valid() && username !in k.users
    modifies k
    ensures k.Valid()
    ensures signup == RedirectToBoard && login == RedirectToBoard
    ensures k.session == Some(username)
    ensures k.flashes == old(k.flashes) + [LoggedIn]
    ensures k.tasks == old(k.tasks) && k.nextId == old(k.nextId)
  {
    signup := k.SignUp(username, password, randomSalt);
    login := k.Login(username, password);
  }

  /** test_signup: the stored digest verifies against password then username. */
  method SignUpStoresDigest(username: string, password: string, randomSalt: nat) returns (stored: Option<Digest>)
    ensures stored.Some? && Verify(password + username, stored.value)
  {
    var k := new Kanban();
    var _ := k.SignUp(username, password, randomSalt);
    stored := if username in k.users then Some(k.users[username].password) else None;
  }

  /** test_signup_duplicate: a second signup under the same name is refused and keeps the first digest. */
  method DuplicateSignUp(username: string, password: string, other: string, salt1: nat, salt2: nat)
    returns (resp: Response, message: string, stored: Option<Digest>)
    ensures resp == SignupPage && message == UsernameTaken
    ensures stored == Some(SetPassword(password, username, salt1))
  {
    var k := new Kanban();
    var _ := k.SignUp(username, password, salt1);
    resp := k.SignUp(username, other, salt2);
    message := k.flashes[|k.flashes| - 1];
    stored := if username in k.users then Some(k.users[username].password) else None;
  }

  /** test_login_logout: log in with the signup credentials, then log out. */
  method LoginLogout(username: string, password: string, randomSalt: nat)
    returns (loginMessage: string, user: Option<string>, logoutMessage: string, after: Option<string>)
    ensures loginMessage == LoggedIn && user == Some(username)
    ensures logoutMessage == LoggedOut && after == None
  {
    var k := new Kanban();
    var _ := k.SignUp(username, password, randomSalt);
    var _ := k.Login(username, password);
    loginMessage, user := k.flashes[|k.flashes| - 1], k.session;
    var _ := k.Logout();
    logoutMessage, after := k.flashes[|k.flashes| - 1], k.session;
  }

  /** test_login_exceptions: a wrong password, then an unknown name; neither logs in. */
  method LoginExceptions(username: string, password: string, wrong: string, stranger: string, randomSalt: nat)
    returns (first: string, second: string, user: Option<string>)
    requires wrong != password && stranger != username
    ensures first == IncorrectPassword && second == InvalidUsername && user == None
  {
    var k := new Kanban();
    var _ := k.SignUp(username, password, randomSalt);
    assert |wrong| == |password| ==>
      (wrong + username)[..|wrong|] == wrong && (password + username)[..|wrong|] == password;
    var _ := k.Login(username, wrong);
    first := k.flashes[|k.flashes| - 1];
    var _ := k.Login(stranger, password);
    second, user := k.flashes[|k.flashes| - 1], k.session;
  }

  /** test_add_task: a logged-in user's new task is id 1, theirs, and on the to-do list. */
  method AddTask(username: string, password: string, randomSalt: nat, text: string) returns (board: Response)
    requires username != ""
    ensures board == BoardPage([Task(1, username, text, ToDo)], [], [], username)
  {
    var k := new Kanban();
    var _ := k.SignUp(username, password, randomSalt);
    var _ := k.Login(username, password);
    var _ := k.Add(text);
    board := k.Index();
    SingleRowBoard(k, username, Task(1, username, text, ToDo), board);
  }

  /** Moves the only task of the logged-in user to `status` and reads the board back. */
  method MoveOnlyTask(k: Kanban, t: Task, status: string) returns (board: Response)
    requires k.Valid() && t.username != "" && k.session == Some(t.username) && k.tasks == map[t.id := t]
    modifies k
    ensures k.Valid() && k.session == old(k.session) && k.tasks == map[t.id := t.(status := status)]
    ensures board.BoardPage? && board.user == t.username
    ensures board.toDo == (if status == ToDo then [t.(status := status)] else [])
    ensures board.doing == (if status == Doing then [t.(status := status)] else [])
    ensures board.done == (if status == Done then [t.(status := status)] else [])
  {
    var _ := k.ChangeStatus(t.id, status);
    board := k.Index();
    SingleRowBoard(k, t.username, t.(status := status), board);
  }

  /** test_move_task: the task moves doing, done, back to to-do, and is then deleted. */
  method MoveTask(username: string, password: string, randomSalt: nat, text: string)
    returns (doing: Response, done: Response, back: Response, deleted: Response, found: Option<Task>)
    requires username != ""
    ensures doing == BoardPage([], [Task(1, username, text, Doing)], [], username)
    ensures done == BoardPage([], [], [Task(1, username, text, Done)], username)
    ensures back == BoardPage([Task(1, username, text, ToDo)], [], [], username)
    ensures deleted == BoardPage([], [], [], username)
    ensures found == None
  {
    var k := new Kanban();
    var _ := k.SignUp(username, password, randomSalt);
    var _ := k.Login(username, password);
    var _ := k.Add(text);
    doing := MoveOnlyTask(k, Task(1, username, text, ToDo), Doing);
    done := MoveOnlyTask(k, Task(1, username, text, Doing), Done);
    back := MoveOnlyTask(k, Task(1, username, text, Done), ToDo);
    var _ := k.Delete(1);
    deleted := k.Index();
    NoTask(deleted.toDo);
    NoTask(deleted.doing);
    NoTask(deleted.done);
    found := k.Find(1);
  }

  /** test_validate_user: with nobody logged in, every task operation answers 401. */
  method ValidateUser(text: string, id: int, status: string) returns (add: Response, change: Response, delete: Response)
    ensures add == Abort(401) && change == Abort(401) && delete == Abort(401)
  {
    var k := new Kanban();
    add := k.Add(text);
    change := k.ChangeStatus(id, status);
    delete := k.Delete(id);
  }

  /** test_validate_task: a logged-in user touching a task that does not exist gets 404. */
  method ValidateTask(username: string, password: string, randomSalt: nat, id: int, status: string)
    returns (change: Response, delete: Response)
    requires username != ""
    ensures change == Abort(404) && delete == Abort(404)
  {
    var k := new Kanban();
    var _ := k.SignUp(username, password, randomSalt);
    var _ := k.Login(username, password);
    change := k.ChangeStatus(id, status);
    delete := k.Delete(id);
  }

  /** Deleting the same task twice: the first succeeds, the second answers 404. */
  method DeleteTwice(username: string, password: string, randomSalt: nat, text: string)
    returns (first: Response, second: Response)
    requires username != ""
    ensures first == RedirectToBoard && second == Abort(404)
  {
    var k := new Kanban();
    var _ := k.SignUp(username, password, randomSalt);
    var _ := k.Login(username, password);
    var _ := k.Add(text);
    first := k.Delete(1);
    second := k.Delete(1);
  }

  /** Setting a task's status twice leaves the table as setting it once does. */
  method ChangeStatusTwice(username: string, password: string, randomSalt: nat, text: string, status: string)
    returns (once: map<int, Task>, twice: map<int, Task>)
    requires username != ""
    ensures once == twice == map[1 := Task(1, username, text, status)]
  {
    var k := new Kanban();
    var _ := k.SignUp(username, password, randomSalt);
    var _ := k.Login(username, password);
    var _ := k.Add(text);
    var _ := k.ChangeStatus(1, status);
    once := k.tasks;
    var _ := k.ChangeStatus(1, status);
    twice := k.tasks;
  }

  /** Neither handler checks ownership: another logged-in user can move and delete someone's task. */
  method OtherUserTakesOver(owner: string, intruder: string, password: string, salt1: nat, salt2: nat, text: string)
    returns (moved: Response, deleted: Response, left: map<int, Task>)
    requires owner != "" && intruder != "" && owner != intruder
    ensures moved == RedirectToBoard && deleted == RedirectToBoard && left == map[]
  {
    var k := new Kanban();
    var _ := k.SignUp(owner, password, salt1);
    var _ := k.SignUp(intruder, password, salt2);
    var _ := k.Login(owner, password);
    var _ := k.Add(text);
    var _ := k.Logout();
    var _ := k.Login(intruder, password);
    moved := k.ChangeStatus(1, Done);
    deleted := k.Delete(1);
    left := k.tasks;
  }

  /**
   * A status outside the enum is stored as given: the table then breaks
   * the enum constraint and the task disappears from its owner's board.
   */
  method UnknownStatusHidesTask(username: string, password: string, randomSalt: nat, text: string, status: string)
    returns (stored: map<int, Task>, valid: bool, board: Response)
    requires username != "" && !IsStatus(status)
    ensures stored == map[1 := Task(1, username, text, status)] && !valid
    ensures board == BoardPage([], [], [], username)
  {
    var k := new Kanban();
    var _ := k.SignUp(username, password, randomSalt);
    var _ := k.Login(username, password);
    var _ := k.Add(text);
    var _ := k.ChangeStatus(1, status);
    stored := k.tasks;
    valid := IsStatus(k.tasks[1].status);
    board := k.Index();
    SingleRowBoard(k, username, Task(1, username, text, status), board);
  }

  /**
   * The empty name can sign up and log in (the login is flashed as a
   * success), but the session then reads as logged out, so adding answers 401.
   */
  method EmptyNameLogin(password: string, randomSalt: nat, text: string)
    returns (message: string, add: Response, board: Response)
    ensures message == LoggedIn && add == Abort(401) && board == RedirectToLogin
  {
    var k := new Kanban();
    var _ := k.SignUp("", password, randomSalt);
    var _ := k.Login("", password);
    message := k.flashes[|k.flashes| - 1];
    add := k.Add(text);
    board := k.Index();
  }

}
