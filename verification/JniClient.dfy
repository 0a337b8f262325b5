/** The entry points of jllama.cpp that a Java thread calls: each touches the two queues in a fixed order, which is
    what the delivery of results relies on. */
module JniClient {
  import opened Wrappers
  import opened Slots
  import opened TaskQueue
  import opened ResultQueue

  /** The requests for some tasks that were given the ids from `first` on. */
  function Requests(tasks: seq<Task>, pin: int, first: int): (r: seq<Request>)
    ensures |r| == |tasks| && forall j :: 0 <= j < |r| ==> r[j] == Run(tasks[j].(id := first + j), pin)
  {
    seq(|tasks|, j requires 0 <= j < |tasks| => Run(tasks[j].(id := first + j), pin))
  }

  function IdsFrom(first: int, n: nat): (r: set<int>)
    ensures forall x :: x in r <==> first <= x < first + n
  {
    if n == 0 then {} else IdsFrom(first, n - 1) + {first + n - 1}
  }

  class JniClient {
    const queueTasks: ServerQueue
    const queueResults: ServerResponse

    constructor (queueTasks: ServerQueue, queueResults: ServerResponse)
      ensures this.queueTasks == queueTasks && this.queueResults == queueResults
    {
      this.queueTasks := queueTasks;
      this.queueResults := queueResults;
    }

    /** `requestCompletion`: ids are drawn, then all tasks are registered, then all are posted. With other than
        one prompt the call fails, but only after that: the tasks run, and nobody can ask for their results. */
    method RequestCompletion(prompts: seq<Task>, pin: int) returns (id: Option<int>)
      requires queueTasks.id >= 0
      modifies queueTasks, queueResults
      ensures var q, n := old(queueTasks.View()), |prompts|;
              && queueTasks.View() == Queues(q.nextId + n, q.tasks + Requests(prompts, pin, q.nextId), q.deferred)
              && queueResults.View()
                 == old(queueResults.View()).(waiting := old(queueResults.View()).waiting + IdsFrom(q.nextId, n))
              && id == if n == 1 then Some(q.nextId) else None
    {
      ghost var first := queueTasks.id;
      var tasks: seq<Request>, ids: seq<int> := [], [];
      var i := 0;
      while i < |prompts|
        invariant 0 <= i <= |prompts| && |ids| == |tasks| == i
        invariant queueTasks.View() == old(queueTasks.View()).(nextId := first + i)
        invariant queueResults.View() == old(queueResults.View())
        invariant tasks == Requests(prompts[..i], pin, first)
        invariant forall j :: 0 <= j < i ==> ids[j] == first + j
      {
        var newId := queueTasks.GetNewId();
        tasks := tasks + [Run(prompts[i].(id := newId), pin)];
        ids := ids + [newId];
        i := i + 1;
      }
      assert prompts[..|prompts|] == prompts;
      queueResults.AddWaitingTasks(ids);
      ListedIds(ids, first);
      queueTasks.PostMany(tasks, false);
      PostedInOrder(old(queueTasks.View()).(nextId := first + |prompts|), tasks, |tasks|, first);
      if |ids| != 1 { return None; }
      return Some(ids[0]);
    }

    // releaseTask
    method ReleaseTask(id: int)
      modifies queueResults
      ensures queueResults.View() == RemovedFrom(old(queueResults.View()), id)
    {
      queueResults.RemoveWaitingTaskId(id);
    }

    /** `receiveCompletion`: the oldest result for the task; an error or a final result ends the waiting. None if
        the thread has to wait. */
    method ReceiveCompletion(id: int) returns (res: Option<Result>)
      modifies queueResults
      ensures var (first, box) := Received(old(queueResults.View()), {id});
              && res == first
              && queueResults.View() == if first.Some? && !first.value.reply.Partial? then RemovedFrom(box, id) else box
    {
      res := queueResults.Recv({id});
      if res.Some? && !res.value.reply.Partial? { queueResults.RemoveWaitingTaskId(id); }
    }

    /** `cancel_tasks` for one task. */
    method CancelTask(id: int)
      modifies queueTasks, queueResults
      ensures queueTasks.View() == PostedAll(old(queueTasks.View()), [Cancel(-1, id)], true, 1)
      ensures queueResults.View() == RemovedFrom(old(queueResults.View()), id)
    {
      queueResults.RemoveWaitingTaskId(id);
      queueTasks.PostMany([Cancel(-1, id)], true);
    }

    /** `cancelCompletion`: afterwards nothing waits for the task or is kept for it, and the cancel is first in the
        queue; all other results stay. */
    method CancelCompletion(id: int)
      modifies queueTasks, queueResults
      ensures queueTasks.View() == PostedAll(old(queueTasks.View()), [Cancel(-1, id)], true, 1)
      ensures id !in queueResults.View().waiting && Of(queueResults.View().results, id) == []
      ensures forall other :: other != id ==>
                && (other in queueResults.View().waiting <==> other in old(queueResults.View()).waiting)
                && Of(queueResults.View().results, other) == Of(old(queueResults.View()).results, other)
    {
      ghost var box := queueResults.View();
      CancelTask(id);
      queueResults.RemoveWaitingTaskId(id);
      OfWithout(RemovedFrom(box, id).results, id, id);
      forall other | other != id
        ensures Of(queueResults.View().results, other) == Of(box.results, other)
      {
        OfWithout(box.results, other, id);
        OfWithout(RemovedFrom(box, id).results, other, id);
      }
    }
  }

  lemma ListedIds(ids: seq<int>, first: int)
    requires forall j :: 0 <= j < |ids| ==> ids[j] == first + j
    ensures (set x | x in ids) == IdsFrom(first, |ids|)
  {
    forall x | x in IdsFrom(first, |ids|) ensures x in ids { assert ids[x - first] == x; }
  }

  /** Tasks that have ids are appended in order, and draw no others. */
  lemma {:induction false} PostedInOrder(q: Queues, rs: seq<Request>, n: nat, first: int)
    requires n <= |rs| && first >= 0 && forall j :: 0 <= j < |rs| ==> rs[j].Run? && rs[j].task.id == first + j
    ensures PostedAll(q, rs, false, n) == q.(tasks := q.tasks + rs[..n])
  {
    if n > 0 {
      PostedInOrder(q, rs, n - 1, first);
      assert rs[..n] == rs[..n - 1] + [rs[n - 1]];
    }
  }
}
