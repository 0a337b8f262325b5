/** `server_queue`: the queue of requests, the deferred ones, and the counter of ids. */
module TaskQueue {
  import opened Wrappers
  import opened Slots

  /** `server_task`: an inference task, perhaps pinned to a slot (`id_selected_slot`, -1 for none); a cancel; or
      the wake-up that `update_slots` posts to itself. */
  datatype Request = Run(task: Task, pin: int) | Cancel(id: int, target: int) | NextResponse(id: int)

  function Id(r: Request): int {
    match r case Run(task, _) => task.id case Cancel(id, _) => id case NextResponse(id) => id
  }

  // id_target, which only a cancel sets
  function Target(r: Request): int { if r.Cancel? then r.target else -1 }

  function Numbered(r: Request, id: int): Request {
    match r
    case Run(task, pin) => Run(task.(id := id), pin)
    case Cancel(_, target) => Cancel(id, target)
    case NextResponse(_) => NextResponse(id)
  }

  datatype Queues = Queues(nextId: int, tasks: seq<Request>, deferred: seq<Request>)

  /** `erase(remove_if(...))` with the predicate of `cleanup_pending_task`. */
  function Spared(rs: seq<Request>, target: int): (r: seq<Request>)
    ensures |r| <= |rs|
  {
    if rs == [] then [] else
    var front, last := Spared(rs[..|rs| - 1], target), rs[|rs| - 1];
    if Target(last) == target then front else front + [last]
  }

  function Cleaned(q: Queues, target: int): Queues {
    q.(tasks := Spared(q.tasks, target), deferred := Spared(q.deferred, target))
  }

  function Posted(q: Queues, r: Request, front: bool): Queues {
    var c := if r.Cancel? then Cleaned(q, r.target) else q;
    c.(tasks := if front then [r] + c.tasks else c.tasks + [r])
  }

  /** The multi-task `post`, after the first `n` tasks: only here ids are given out. */
  function PostedAll(q: Queues, rs: seq<Request>, front: bool, n: nat): Queues
    requires n <= |rs|
  {
    if n == 0 then q else
    var p, r := PostedAll(q, rs, front, n - 1), rs[n - 1];
    if Id(r) == -1 then Posted(p.(nextId := p.nextId + 1), Numbered(r, p.nextId), front) else Posted(p, r, front)
  }

  function Undeferred(q: Queues): Queues {
    if q.deferred == [] then q else q.(tasks := q.tasks + [q.deferred[0]], deferred := q.deferred[1..])
  }

  class ServerQueue {
    var id: int
    var queueTasks: seq<Request>
    var queueTasksDeferred: seq<Request>

    constructor ()
      ensures View() == Queues(0, [], [])
    {
      id, queueTasks, queueTasksDeferred := 0, [], [];
    }

    function View(): Queues
      reads this
    {
      Queues(id, queueTasks, queueTasksDeferred)
    }

    static method RemoveIf(rs: seq<Request>, target: int) returns (kept: seq<Request>)
      ensures kept == Spared(rs, target)
    {
      kept := [];
      var i := 0;
      while i < |rs|
        invariant 0 <= i <= |rs|
        invariant kept == Spared(rs[..i], target)
      {
        assert rs[..i + 1][..i] == rs[..i];
        if Target(rs[i]) != target { kept := kept + [rs[i]]; }
        i := i + 1;
      }
      assert rs[..|rs|] == rs;
    }

    method CleanupPendingTask(target: int)
      modifies this
      ensures View() == Cleaned(old(View()), target)
    {
      queueTasks := RemoveIf(queueTasks, target);
      queueTasksDeferred := RemoveIf(queueTasksDeferred, target);
    }

    method Post(task: Request, front: bool) returns (newId: int)
      requires Id(task) != -1
      modifies this
      ensures View() == Posted(old(View()), task, front) && newId == Id(task)
    {
      if task.Cancel? { CleanupPendingTask(task.target); }
      if front { queueTasks := [task] + queueTasks; } else { queueTasks := queueTasks + [task]; }
      return Id(task);
    }

    method PostMany(tasks: seq<Request>, front: bool)
      modifies this
      ensures View() == PostedAll(old(View()), tasks, front, |tasks|)
    {
      var i := 0;
      while i < |tasks|
        invariant 0 <= i <= |tasks|
        invariant View() == PostedAll(old(View()), tasks, front, i)
      {
        var task := tasks[i];
        if Id(task) == -1 {
          task := Numbered(task, id);
          id := id + 1;
        }
        if task.Cancel? { CleanupPendingTask(task.target); }
        if front { queueTasks := [task] + queueTasks; } else { queueTasks := queueTasks + [task]; }
        i := i + 1;
      }
    }

    method Defer(task: Request)
      modifies this
      ensures View() == old(View()).(deferred := old(View()).deferred + [task])
    {
      queueTasksDeferred := queueTasksDeferred + [task];
    }

    method GetNewId() returns (newId: int)
      modifies this
      ensures View() == old(View()).(nextId := old(View()).nextId + 1) && newId == old(View()).nextId
    {
      newId := id;
      id := id + 1;
    }

    method PopDeferredTask()
      modifies this
      ensures View() == Undeferred(old(View()))
    {
      if queueTasksDeferred != [] {
        queueTasks := queueTasks + [queueTasksDeferred[0]];
        queueTasksDeferred := queueTasksDeferred[1..];
      }
    }

    /** The head of the queue, taken off under the lock; none if there is nothing to do. */
    method TakeTask() returns (task: Option<Request>)
      modifies this
      ensures var was := old(View());
              if was.tasks == [] then task.None? && View() == was
              else task == Some(was.tasks[0]) && View() == was.(tasks := was.tasks[1..])
    {
      if queueTasks == [] { return None; }
      task := Some(queueTasks[0]);
      queueTasks := queueTasks[1..];
    }
  }

  // ------------------------------------------------------------------ what a cancel takes away

  predicate Aimed(rs: seq<Request>, target: int) { exists i :: 0 <= i < |rs| && Target(rs[i]) == target }

  /** Nothing is lost exactly if no request has this target. Inference tasks and wake-ups have target -1, so a
      cancel of a task id never takes a pending inference task out of the queue. */
  lemma {:induction false} SparedIsAllExactly(rs: seq<Request>, target: int)
    ensures Spared(rs, target) == rs <==> !Aimed(rs, target)
  {
    if rs != [] {
      var front := rs[..|rs| - 1];
      SparedIsAllExactly(front, target);
      if Aimed(front, target) {
        var i :| 0 <= i < |front| && Target(front[i]) == target;
        assert Target(rs[i]) == target;
      }
      SparedIsShort(front, target);
    }
  }

  lemma {:induction false} SparedIsShort(rs: seq<Request>, target: int)
    ensures |Spared(rs, target)| == |rs| ==> Spared(rs, target) == rs
  {
    if rs != [] { SparedIsShort(rs[..|rs| - 1], target); }
  }

  lemma {:induction false} SparedConcat(a: seq<Request>, b: seq<Request>, target: int)
    ensures Spared(a + b, target) == Spared(a, target) + Spared(b, target)
    decreases |b|
  {
    if b == [] {
      assert a + b == a;
    } else {
      SparedConcat(a, b[..|b| - 1], target);
      assert (a + b)[..|a + b| - 1] == a + b[..|b| - 1];
    }
  }

  /** What a cancel of `target` takes away: other cancels of it; inference tasks and wake-ups if it is -1. */
  predicate TakenAway(r: Request, target: int) { if r.Cancel? then r.target == target else target == -1 }

  /** A clean-up decides on each request by itself, wherever it stands, and keeps the order. */
  lemma SparedExactly(a: seq<Request>, r: Request, b: seq<Request>, target: int)
    ensures Spared([], target) == []
    ensures Spared(a + [r] + b, target)
            == Spared(a, target) + (if TakenAway(r, target) then [] else [r]) + Spared(b, target)
  {
    assert [r][..0] == [];
    SparedConcat(a + [r], b, target);
    SparedConcat(a, [r], target);
  }

  lemma {:induction false} InSpared(rs: seq<Request>, target: int, r: Request)
    ensures r in Spared(rs, target) <==> r in rs && !TakenAway(r, target)
  {
    if rs != [] {
      InSpared(rs[..|rs| - 1], target, r);
      assert rs == rs[..|rs| - 1] + [rs[|rs| - 1]];
    }
  }

  /** Posting a cancel cleans both queues up, and puts it into the first one. */
  lemma CancelCleansBoth(q: Queues, id: int, target: int, front: bool, r: Request)
    ensures var p := Posted(q, Cancel(id, target), front);
            && (r in p.deferred <==> r in q.deferred && !TakenAway(r, target))
            && (r in p.tasks <==> r == Cancel(id, target) || (r in q.tasks && !TakenAway(r, target)))
  {
    InSpared(q.tasks, target, r);
    InSpared(q.deferred, target, r);
  }

  /** The inference tasks among the requests. */
  function Inference(rs: seq<Request>): (r: seq<Request>) {
    if rs == [] then [] else
    Inference(rs[..|rs| - 1]) + if rs[|rs| - 1].Run? then [rs[|rs| - 1]] else []
  }

  predicate NoInference(rs: seq<Request>) { forall i :: 0 <= i < |rs| ==> !rs[i].Run? }

  lemma {:induction false} InferenceOfNone(rs: seq<Request>)
    ensures Inference(rs) == [] <==> NoInference(rs)
  {
    if rs != [] { InferenceOfNone(rs[..|rs| - 1]); }
  }

  lemma InferenceAppend(rs: seq<Request>, r: Request)
    ensures Inference(rs + [r]) == Inference(rs) + if r.Run? then [r] else []
  {
    assert (rs + [r])[..|rs|] == rs;
  }

  lemma {:induction false} TaskCancelKeepsInference(rs: seq<Request>, target: int)
    requires target != -1
    ensures Inference(Spared(rs, target)) == Inference(rs)
  {
    if rs != [] {
      TaskCancelKeepsInference(rs[..|rs| - 1], target);
      InferenceAppend(Spared(rs[..|rs| - 1], target), rs[|rs| - 1]);
    }
  }

  lemma {:induction false} CancelOfNoneDropsInference(rs: seq<Request>)
    ensures Inference(Spared(rs, -1)) == []
  {
    if rs != [] {
      CancelOfNoneDropsInference(rs[..|rs| - 1]);
      InferenceAppend(Spared(rs[..|rs| - 1], -1), rs[|rs| - 1]);
    }
  }

  /** Cancelling keeps every pending inference task exactly if its target is not -1, or there are none: a cancel
      of task -1 would empty the queue of them. */
  lemma CancelKeepsInferenceExactly(rs: seq<Request>, target: int)
    ensures Inference(Spared(rs, target)) == Inference(rs) <==> target != -1 || NoInference(rs)
  {
    InferenceOfNone(rs);
    if target == -1 { CancelOfNoneDropsInference(rs); } else { TaskCancelKeepsInference(rs, target); }
  }
}
