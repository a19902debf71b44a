# Kanban board: a Dafny model of its request handlers

This project models the core of a small multi-user Kanban board web application
(`app/api.py` and `app/models.py`). Users sign up with a salted password hash,
log in, and then add tasks, move them between `to_do`, `doing` and `done`, and
delete them. The board page splits the logged-in user's tasks into three lists
by status.

The application is modelled as one sequential state machine: class `Api.Kanban`
in `api.dfy`. Its fields are:

- the `users` table (username → `User` row);
- the `tasks` table (id → `Task` row);
- the counter for the next task id;
- the session's optional username;
- the list of flashed messages.

Each handler is a method. Its contract gives the whole new state and the
response. A response is a redirect, the re-rendered signup page, the board
page, or `Abort(401)` / `Abort(404)`.

Files:

- `wrappers.dfy`: `Option`.
- `passwords.dfy`: `set_password`, and a stand-in for the sha256_crypt hash/verify pair.
- `models.dfy`: the `User` and `Task` rows, plus the schema's primary-key, foreign-key and enum constraints as predicates over the tables.
- `board.dfy`: the board query and the partition loop of `index`, with lemmas about the partition.
- `api.dfy`: the handlers.
- `scenarios.dfy`: the cases of `test.py`, plus a few cases the handlers allow, written as client code over a fresh `Kanban`.

Behaviour the model keeps as the code has it:

- `ChangeStatus` stores any status string. The enum constraint (`StatusesValid`) is therefore not part of the object invariant `Valid()`. `ChangeStatus` states that it keeps the constraint exactly when the new status is one of the three values. `UnknownStatusHidesTask` shows a stored task vanishing from its owner's board.
- `ChangeStatus` and `Delete` check only that someone is logged in, not that the caller owns the task. `OtherUserTakesOver` shows this.
- `session.get('username')` is tested for truth. An empty username therefore reads as "nobody logged in". The empty name can still sign up, and its login is flashed as a success. `EmptyNameLogin` shows that adding a task afterwards answers 401.
- The password is hashed as password followed by username, and login verifies the same concatenation.

Behaviour the code has that a reader might not expect:

- The username serves as a salt, yet it is appended after the password rather than placed before it.
- Task text is not checked to be non-empty when a task is added.
- The status is not validated when it is changed.

The foreign-key invariant is kept in `Valid()`. The database does not enforce it, but every handler preserves it: session names come only from stored users, `Add` uses the session name as the owner, and users are never deleted.

## Model

| member | source | states |
|---|---|---|
| `Passwords.Hash` | app/api.py:11 | a digest made from a string verifies against that string (the one property assumed of sha256_crypt) |
| `Passwords.SetPassword` | app/api.py:8-12 | the stored digest verifies against password followed by the salt |
| `Passwords.Verify` | app/api.py:72 | a digest verifies a candidate exactly when the digest was made from that candidate, whatever random salt it carries |
| `Models.IsStatus` | app/models.py:31 | the enum's three values are distinct, so a valid status equals exactly one of them |
| `Models.UsersKeyed` | app/models.py:13 | the username primary key: no two rows of `users` have the same username |
| `Models.TasksKeyed` | app/models.py:28 | the id primary key: no two rows of `tasks` have the same id |
| `Models.OwnersStayRegistered` | app/models.py:29 | the foreign key from task owner to username survives a new user, since users are only ever added |
| `Models.InsertToDoKeepsEnum` | app/models.py:31 | inserting a row with status `to_do` keeps every status inside the enum |
| `Board.OwnedTasks` | app/api.py:51 | the query result holds exactly the table rows owned by the user (every id below the counter), in ascending id order |
| `Board.Bucket` | app/api.py:52-59 | a bucket is no longer than its input, and every element in it has that bucket's status |
| `Board.Unlisted` | app/api.py:53-59 | the tasks that the loop drops are none exactly when every status is one of the three values |
| `Board.AssembleBoard` | app/api.py:52-59 | the append loop leaves each of the three lists equal to the input's bucket for that status |
| `Board.BucketMember` | app/api.py:53-59 | a task is in a bucket if and only if it is in the input with that bucket's status |
| `Board.BucketAppend` | app/api.py:52-59 | bucketing distributes over concatenation, so the input order is kept within each bucket |
| `Board.BucketAscending` | app/api.py:51-59 | a bucket of an id-ordered list is id-ordered |
| `Board.BucketsDisjoint` | app/api.py:54-59 | no task appears in two buckets |
| `Board.UnknownStatusDropped` | app/api.py:53-59 | a task whose status is not one of the three values appears in no bucket |
| `Board.BucketsPartition` | app/api.py:52-59 | as multisets, the three buckets and the dropped tasks together are exactly the input: every input task lands once, in one place |
| `Board.BucketsCount` | app/api.py:52-59 | the lengths of the three buckets and of the dropped tasks sum to the input length |
| `Board.BoardSize` | app/api.py:52-59 | the bucket lengths sum to at most the input length, with equality if and only if every status is one of the three values |
| `Api.WithStatus` | app/api.py:115 | a status update changes only that row's status; the row's id, owner and text, and all other rows, are unchanged |
| `Api.WithStatusIdempotent` | app/api.py:110-116 | applying the same status twice equals applying it once |
| `Api.WithStatusKeepsEnum` | app/api.py:115 | starting from a table that meets the enum constraint, a status update keeps the constraint if and only if the new status is one of the three values |
| `Api.Kanban.Valid` | app/models.py:13-31 | the state invariant: key uniqueness, every task owner registered, ids below the counter, and the session name registered; it implies the counter is never a live id |
| `Api.Kanban.CurrentUser` | app/api.py:47 | someone counts as logged in exactly when the session holds a non-empty username, and then that username is the current user |
| `Api.Kanban.constructor` | app/models.py:33-35 | the start state has empty tables, id counter 1, no session and no messages, and meets every table constraint |
| `Api.Kanban.Find` | app/api.py:110 | the id lookup finds a row exactly when the id is in the table, and that row is the stored one |
| `Api.Kanban.SignUp` | app/api.py:24-41 | if the username is absent, adds exactly that one user, with a digest that verifies against password+username; otherwise the users table is unchanged and "Username already existed!" is flashed; the tasks table and the session are untouched |
| `Api.Kanban.Login` | app/api.py:62-78 | for an unknown name, flashes "Invalid username!" and leaves the session unchanged; when the digest verifies password+username, sets the session to that name and flashes "Logged in successfully!"; otherwise flashes "Incorrect password!" and leaves the session unchanged |
| `Api.Kanban.Logout` | app/api.py:80-86 | always leaves the session empty and flashes "Logged out successfully!", including when nobody was logged in |
| `Api.Kanban.Index` | app/api.py:43-60 | with nobody logged in, redirects to login; otherwise each list holds exactly the user's stored tasks with that status, in id order |
| `Api.Kanban.Add` | app/api.py:88-102 | with nobody logged in, answers 401 and leaves tasks and counter unchanged; otherwise inserts one `to_do` task with the given text, owned by the session user, under an id not in use; other rows are unchanged |
| `Api.Kanban.ChangeStatus` | app/api.py:104-117 | 401 when nobody is logged in, and 404 for an absent id, both with the table unchanged; otherwise sets only that task's status to the given string, for any caller; the enum constraint survives if and only if the string is a valid status |
| `Api.Kanban.Delete` | app/api.py:119-132 | 401 when nobody is logged in, and 404 for an absent id, both with the table unchanged; otherwise removes exactly that id, for any caller |
| `Scenarios.SignUpThenLogIn` | app/api.py:24-78 | from any valid state, signing up under a free name and logging in with the same password logs that name in and flashes "Logged in successfully!", because both handlers use password+username |
| `Scenarios.SignUpStoresDigest` | test.py:64-69 | after signup, the stored digest verifies against password+username |
| `Scenarios.DuplicateSignUp` | test.py:71-78 | a second signup under the same name re-renders the form, flashes "Username already existed!" and keeps the first digest |
| `Scenarios.LoginLogout` | test.py:80-89 | login with the signup credentials logs in and flashes success; logout clears the session and flashes its message |
| `Scenarios.LoginExceptions` | test.py:91-100 | a wrong password flashes "Incorrect password!", an unknown name flashes "Invalid username!", and neither logs in |
| `Scenarios.AddTask` | test.py:102-113 | after login and add, the board shows exactly the new task, id 1, owned by the user, under `to_do` |
| `Scenarios.MoveTask` | test.py:115-143 | the task shows under `doing`, then `done`, then `to_do`; after delete the board is empty and the lookup finds nothing |
| `Scenarios.ValidateUser` | test.py:145-152 | with nobody logged in, add, change status and delete each answer 401 |
| `Scenarios.ValidateTask` | test.py:154-165 | a logged-in user changing or deleting an absent task gets 404 |
| `Scenarios.DeleteTwice` | app/api.py:119-132 | deleting a task succeeds once; the second delete answers 404 |
| `Scenarios.ChangeStatusTwice` | app/api.py:104-117 | the table after setting a status twice equals the table after setting it once |
| `Scenarios.OtherUserTakesOver` | app/api.py:104-132 | a different logged-in user can move and delete another user's task |
| `Scenarios.UnknownStatusHidesTask` | app/api.py:104-117 | a status outside the enum is stored as given, and the task disappears from its owner's board |
| `Scenarios.EmptyNameLogin` | app/api.py:62-93 | the empty username can log in with a success message, but the session then reads as logged out: add answers 401 and the board redirects to login |

## Left out

- Routing, `render_template`, `redirect`/`url_for` and `abort` mechanics (app/api.py:14-22 and the handlers' return statements) are modelled only as `Response` values. The two GET pages that just render a form are not modelled.
- The SQLAlchemy session, `commit`, `db.create_all()` and the SQLite configuration are persistence I/O. The tables are maps.
- The internals of sha256_crypt are not modelled. Its random per-hash salt is a parameter of `Hash`. `Verify` is exact equality with the hashed string. That is stronger than the single assumption the handlers need (a digest verifies the string it was made from). Only the wrong-password case of `LoginExceptions` relies on the extra strength.
- Secret-key generation with `os.urandom`, and the `DEBUG` flag, are process configuration.
- A non-numeric id makes `int(id)` fail before any lookup. That framework error path is not modelled: ids are integers, and a negative id simply finds nothing and answers 404.
- A missing form field (`request.form[...]`) raises a framework 400 error. This is not modelled: every handler receives its fields.
- Api.Kanban.Add: the contract fixes the new id to the counter, which only grows. SQLite without AUTOINCREMENT actually assigns one more than the largest live id, and may reuse the id of a deleted last row. Of the id, only its freshness (it is never a live id) holds under both schemes.
- Api.Kanban.ChangeStatus: does not model the CHECK constraint that some SQLAlchemy versions emit for an `Enum` column. Under such a constraint the commit of an unknown status would fail instead of storing it. Versions without the constraint may instead refuse to load a row whose status is outside the enum, so that reading the board or that row would fail rather than drop the task. The model keeps the handler code's behaviour: the value is stored and the board skips it.
- Board.OwnedTasks: the query in `index` has no ORDER BY. The model fixes the order to ascending id, which is the order SQLite's rowid scan returns. `Api.Kanban.Index` and the scenarios that give exact board lists depend on that order.
- Concurrent requests and separate sessions are not modelled. There is one session and one sequence of requests.
- The username shown on the board page is carried in `BoardPage.user`. Nothing else about the template is modelled.
