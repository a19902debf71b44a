/**
 * The Kanban board of app/api.py `index`: the logged-in user's tasks, read
 * from the `tasks` table, split by status into three lists in one pass.
 */
module Board {

  import opened Models

  /** Task ids strictly increase along the list (the order rows come back in). */
  predicate IdsAscending(tasks: seq<Task>)
  {
    forall i, j :: 0 <= i < j < |tasks| ==> tasks[i].id < tasks[j].id
  }

  /**
   * The query `Task.username == owner`: the owner's rows among ids
   * `0 .. n-1`, in id order.
   */
  function OwnedTasks(tasks: map<int, Task>, owner: string, n: int): (r: seq<Task>)
    requires TasksKeyed(tasks)
    ensures forall i :: 0 <= i < |r| ==> 0 <= r[i].id < n
    ensures forall t :: t in r <==> 0 <= t.id < n && t.id in tasks && tasks[t.id] == t && t.username == owner
    ensures IdsAscending(r)
    decreases n
  {
    if n <= 0 then []
    else
      var id := n - 1;
      OwnedTasks(tasks, owner, id) + (if id in tasks && tasks[id].username == owner then [tasks[id]] else [])
  }

  /** The tasks of `tasks` whose status is `status`, in input order. */
  function Bucket(tasks: seq<Task>, status: string): (r: seq<Task>)
    ensures |r| <= |tasks|
    ensures forall i :: 0 <= i < |r| ==> r[i].status == status
    decreases |tasks|
  {
    if tasks == [] then []
    else
      var last := tasks[|tasks| - 1];
      Bucket(tasks[..|tasks| - 1], status) + (if last.status == status then [last] else [])
  }

  /** The tasks that fall through all three branches of the loop, in input order. */
  function Unlisted(tasks: seq<Task>): (r: seq<Task>)
    ensures r == [] <==> forall i :: 0 <= i < |tasks| ==> IsStatus(tasks[i].status)
    decreases |tasks|
  {
    if tasks == [] then []
    else
      var last := tasks[|tasks| - 1];
      Unlisted(tasks[..|tasks| - 1]) + (if IsStatus(last.status) then [] else [last])
  }

  /** The `for task in tasks` loop of `index`, appending each task to the list of its status. */
  method AssembleBoard(tasks: seq<Task>) returns (toDo: seq<Task>, doing: seq<Task>, done: seq<Task>)
    ensures toDo == Bucket(tasks, ToDo)
    ensures doing == Bucket(tasks, Doing)
    ensures done == Bucket(tasks, Done)
  {
    toDo, doing, done := [], [], [];
    for i := 0 to |tasks|
      invariant toDo == Bucket(tasks[..i], ToDo)
      invariant doing == Bucket(tasks[..i], Doing)
      invariant done == Bucket(tasks[..i], Done)
    {
      var task := tasks[i];
      assert tasks[..i + 1][..i] == tasks[..i];
      if task.status == ToDo {
        toDo := toDo + [task];
      } else if task.status == Doing {
        doing := doing + [task];
      } else if task.status == Done {
        done := done + [task];
      }
    }
    assert tasks[..|tasks|] == tasks;
  }

  /** A bucket holds exactly the input tasks with its status. */
  lemma {:induction false} BucketMember(tasks: seq<Task>, status: string, t: Task)
    ensures t in Bucket(tasks, status) <==> t in tasks && t.status == status
    decreases |tasks|
  {
    if tasks != [] {
      var prefix, last := tasks[..|tasks| - 1], tasks[|tasks| - 1];
      BucketMember(prefix, status, t);
      assert tasks == prefix + [last];
    }
  }

  /** Bucketing distributes over concatenation: the input order is kept within a bucket. */
  lemma {:induction false} BucketAppend(a: seq<Task>, b: seq<Task>, status: string)
    ensures Bucket(a + b, status) == Bucket(a, status) + Bucket(b, status)
    decreases |b|
  {
    if b == [] {
      assert a + b == a;
    } else {
      var prefix := b[..|b| - 1];
      BucketAppend(a, prefix, status);
      assert (a + b)[..|a + b| - 1] == a + prefix;
    }
  }

  /** A bucket of an id-ordered list is id-ordered. */
  lemma {:induction false} BucketAscending(tasks: seq<Task>, status: string)
    requires IdsAscending(tasks)
    ensures IdsAscending(Bucket(tasks, status))
    decreases |tasks|
  {
    if tasks != [] {
      var prefix, last := tasks[..|tasks| - 1], tasks[|tasks| - 1];
      BucketAscending(prefix, status);
      var b := Bucket(prefix, status);
      forall i | 0 <= i < |b|
        ensures b[i].id < last.id
      {
        BucketMember(prefix, status, b[i]);
        var j :| 0 <= j < |prefix| && prefix[j] == b[i];
        assert tasks[j] == prefix[j];
      }
    }
  }

  /** No task is in two buckets. */
  lemma BucketsDisjoint(tasks: seq<Task>, t: Task)
    ensures !(t in Bucket(tasks, ToDo) && t in Bucket(tasks, Doing))
    ensures !(t in Bucket(tasks, ToDo) && t in Bucket(tasks, Done))
    ensures !(t in Bucket(tasks, Doing) && t in Bucket(tasks, Done))
  {
  }

  /** A task whose status is none of the three is on no list. */
  lemma UnknownStatusDropped(tasks: seq<Task>, t: Task)
    requires !IsStatus(t.status)
    ensures t !in Bucket(tasks, ToDo) && t !in Bucket(tasks, Doing) && t !in Bucket(tasks, Done)
  {
  }

  /** One more task at the end of the input goes to the end of its own bucket only. */
  lemma BucketSnoc(prefix: seq<Task>, last: Task, status: string)
    ensures multiset(Bucket(prefix + [last], status))
         == multiset(Bucket(prefix, status)) + (if last.status == status then multiset{last} else multiset{})
  {
    assert (prefix + [last])[..|prefix|] == prefix;
  }

  /** One more task at the end of the input joins the unlisted rest exactly when its status is unknown. */
  lemma UnlistedSnoc(prefix: seq<Task>, last: Task)
    ensures multiset(Unlisted(prefix + [last]))
         == multiset(Unlisted(prefix)) + (if IsStatus(last.status) then multiset{} else multiset{last})
  {
    assert (prefix + [last])[..|prefix|] == prefix;
  }

  /** Adding `last` to exactly one of four multisets adds it once to their sum. */
  lemma SumStep(a: multiset<Task>, b: multiset<Task>, c: multiset<Task>, d: multiset<Task>, last: Task,
                known: bool, inA: bool, inB: bool, inC: bool)
    requires known <==> inA || inB || inC
    requires !(inA && inB) && !(inA && inC) && !(inB && inC)
    ensures (a + (if inA then multiset{last} else multiset{})) + (b + (if inB then multiset{last} else multiset{}))
          + (c + (if inC then multiset{last} else multiset{})) + (d + (if known then multiset{} else multiset{last}))
         == a + b + c + d + multiset{last}
  {
  }

  /** Every input task lands in exactly one of the three buckets or the unlisted rest. */
  lemma {:induction false} BucketsPartition(tasks: seq<Task>)
    ensures multiset(Bucket(tasks, ToDo)) + multiset(Bucket(tasks, Doing)) + multiset(Bucket(tasks, Done))
          + multiset(Unlisted(tasks)) == multiset(tasks)
    decreases |tasks|
  {
    if tasks != [] {
      var prefix, last := tasks[..|tasks| - 1], tasks[|tasks| - 1];
      BucketsPartition(prefix);
      assert tasks == prefix + [last];
      BucketSnoc(prefix, last, ToDo);
      BucketSnoc(prefix, last, Doing);
      BucketSnoc(prefix, last, Done);
      UnlistedSnoc(prefix, last);
      assert multiset(tasks) == multiset(prefix) + multiset{last};
      SumStep(multiset(Bucket(prefix, ToDo)), multiset(Bucket(prefix, Doing)), multiset(Bucket(prefix, Done)),
              multiset(Unlisted(prefix)), last, IsStatus(last.status), last.status == ToDo, last.status == Doing, last.status == Done);
    }
  }

  /** The lengths of the three buckets and of the unlisted rest sum to the input length. */
  lemma BucketsCount(tasks: seq<Task>)
    ensures |Bucket(tasks, ToDo)| + |Bucket(tasks, Doing)| + |Bucket(tasks, Done)| + |Unlisted(tasks)| == |tasks|
  {
    BucketsPartition(tasks);
    assert |multiset(tasks)| == |tasks|;
  }

  /**
   * The three lists together are never longer than the input, and they are
   * exactly as long when, and only when, every status is one of the three.
   */
  lemma {:induction false} BoardSize(tasks: seq<Task>)
    ensures |Bucket(tasks, ToDo)| + |Bucket(tasks, Doing)| + |Bucket(tasks, Done)| <= |tasks|
    ensures |Bucket(tasks, ToDo)| + |Bucket(tasks, Doing)| + |Bucket(tasks, Done)| == |tasks|
        <==> forall i :: 0 <= i < |tasks| ==> IsStatus(tasks[i].status)
  {
    BucketsCount(tasks);
  }

}
