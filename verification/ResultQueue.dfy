/** `server_response`: the ids that are waited for, and the results that were sent and not received yet. */
module ResultQueue {
  import opened Wrappers
  import opened Slots

  datatype Result = Result(id: int, reply: Reply)

  datatype Box = Box(waiting: set<int>, results: seq<Result>)

  /** The results for one task. */
  function Of(results: seq<Result>, id: int): seq<Reply> {
    if results == [] then [] else
    var front, last := Of(results[..|results| - 1], id), results[|results| - 1];
    if last.id == id then front + [last.reply] else front
  }

  function Without(results: seq<Result>, id: int): seq<Result> {
    if results == [] then [] else
    var front, last := Without(results[..|results| - 1], id), results[|results| - 1];
    if last.id == id then front else front + [last]
  }

  function SentTo(b: Box, r: Result): Box {
    if r.id in b.waiting then b.(results := b.results + [r]) else b
  }

  function RemovedFrom(b: Box, id: int): Box { Box(b.waiting - {id}, Without(b.results, id)) }

  /** The first result for one of the ids, from position `i` on. */
  function FirstFor(results: seq<Result>, ids: set<int>, i: nat): (r: nat)
    requires i <= |results|
    ensures i <= r <= |results|
    ensures r < |results| ==> results[r].id in ids
    ensures forall j :: i <= j < r ==> results[j].id !in ids
    decreases |results| - i
  {
    if i == |results| || results[i].id in ids then i else FirstFor(results, ids, i + 1)
  }

  function Received(b: Box, ids: set<int>): (Option<Result>, Box) {
    var i := FirstFor(b.results, ids, 0);
    if i == |b.results| then (None, b) else (Some(b.results[i]), b.(results := b.results[..i] + b.results[i + 1..]))
  }

  class ServerResponse {
    var waitingTaskIds: set<int>
    var queueResults: seq<Result>

    constructor ()
      ensures View() == Box({}, [])
    {
      waitingTaskIds, queueResults := {}, [];
    }

    function View(): Box
      reads this
    {
      Box(waitingTaskIds, queueResults)
    }

    method AddWaitingTaskId(id: int)
      modifies this
      ensures View() == old(View()).(waiting := old(View()).waiting + {id})
    {
      waitingTaskIds := waitingTaskIds + {id};
    }

    method AddWaitingTasks(ids: seq<int>)
      modifies this
      ensures View() == old(View()).(waiting := old(View()).waiting + set x | x in ids)
    {
      var i := 0;
      while i < |ids|
        invariant 0 <= i <= |ids|
        invariant View() == old(View()).(waiting := old(View()).waiting + set x | x in ids[..i])
      {
        assert ids[..i + 1] == ids[..i] + [ids[i]];
        waitingTaskIds := waitingTaskIds + {ids[i]};
        i := i + 1;
      }
      assert ids[..|ids|] == ids;
    }

    method RemoveWaitingTaskId(id: int)
      modifies this
      ensures View() == RemovedFrom(old(View()), id)
    {
      waitingTaskIds := waitingTaskIds - {id};
      var kept: seq<Result>, i := [], 0;
      while i < |queueResults|
        invariant 0 <= i <= |queueResults|
        invariant queueResults == old(queueResults) && waitingTaskIds == old(waitingTaskIds) - {id}
        invariant kept == Without(queueResults[..i], id)
      {
        assert queueResults[..i + 1][..i] == queueResults[..i];
        if queueResults[i].id != id { kept := kept + [queueResults[i]]; }
        i := i + 1;
      }
      assert queueResults[..|queueResults|] == queueResults;
      queueResults := kept;
    }

    /** One pass of `recv`; it waits and tries again when there is nothing for these ids. */
    method Recv(ids: set<int>) returns (res: Option<Result>)
      modifies this
      ensures (res, View()) == Received(old(View()), ids)
    {
      var i := 0;
      while i < |queueResults|
        invariant 0 <= i <= |queueResults|
        invariant View() == old(View())
        invariant FirstFor(queueResults, ids, 0) == FirstFor(queueResults, ids, i)
      {
        if queueResults[i].id in ids {
          res := Some(queueResults[i]);
          queueResults := queueResults[..i] + queueResults[i + 1..];
          return;
        }
        i := i + 1;
      }
      return None;
    }

    method Send(result: Result)
      modifies this
      ensures View() == SentTo(old(View()), result)
    {
      if result.id in waitingTaskIds { queueResults := queueResults + [result]; }
    }
  }

  // ------------------------------------------------------------------ one task's results

  lemma OfAppend(results: seq<Result>, r: Result, id: int)
    ensures Of(results + [r], id) == Of(results, id) + if r.id == id then [r.reply] else []
  {
    assert (results + [r])[..|results|] == results;
  }

  lemma {:induction false} OfWithout(results: seq<Result>, id: int, other: int)
    ensures Of(Without(results, other), id) == if id == other then [] else Of(results, id)
  {
    if results != [] {
      var front, last := results[..|results| - 1], results[|results| - 1];
      OfWithout(front, id, other);
      OfAppend(Without(front, other), last, id);
    }
  }

  lemma {:induction false} OfConcat(a: seq<Result>, b: seq<Result>, id: int)
    ensures Of(a + b, id) == Of(a, id) + Of(b, id)
    decreases |b|
  {
    if b == [] {
      assert a + b == a;
    } else {
      OfConcat(a, b[..|b| - 1], id);
      assert (a + b)[..|a + b| - 1] == a + b[..|b| - 1];
    }
  }

  lemma OfTaken(results: seq<Result>, i: nat, id: int)
    requires i < |results|
    ensures Of(results, id)
            == Of(results[..i], id) + (if results[i].id == id then [results[i].reply] else [])
               + Of(results[i + 1..], id)
    ensures Of(results[..i] + results[i + 1..], id) == Of(results[..i], id) + Of(results[i + 1..], id)
  {
    assert results == results[..i] + [results[i]] + results[i + 1..];
    OfConcat(results[..i] + [results[i]], results[i + 1..], id);
    OfAppend(results[..i], results[i], id);
    OfConcat(results[..i], results[i + 1..], id);
  }

  lemma OwnReceived(b: Box, id: int)
    ensures var (res, after) := Received(b, {id});
            && (res.None? <==> Of(b.results, id) == [])
            && (res.Some? ==> res.value.id == id && Of(b.results, id) == [res.value.reply] + Of(after.results, id))
  {
    var i := FirstFor(b.results, {id}, 0);
    NoneBefore(b.results, id, i);
    if i == |b.results| {
      assert b.results[..i] == b.results;
    } else {
      OfTaken(b.results, i, id);
    }
  }

  lemma OthersReceived(b: Box, id: int, other: int)
    requires other != id
    ensures Of(Received(b, {id}).1.results, other) == Of(b.results, other)
  {
    var i := FirstFor(b.results, {id}, 0);
    if i < |b.results| { OfTaken(b.results, i, other); }
  }

  /** Receiving for one task takes the oldest of its results and leaves all other tasks' alone. */
  lemma ReceivedIsOldest(b: Box, id: int, other: int)
    ensures var (res, after) := Received(b, {id});
            && after.waiting == b.waiting
            && (res.None? <==> Of(b.results, id) == [])
            && (res.Some? ==> res.value.id == id && Of(b.results, id) == [res.value.reply] + Of(after.results, id))
            && (other != id ==> Of(after.results, other) == Of(b.results, other))
  {
    OwnReceived(b, id);
    if other != id { OthersReceived(b, id, other); }
  }

  lemma {:induction false} NoneBefore(results: seq<Result>, id: int, i: nat)
    requires i <= |results| && forall j :: 0 <= j < i ==> results[j].id != id
    ensures Of(results[..i], id) == []
    decreases i
  {
    if i > 0 {
      NoneBefore(results, id, i - 1);
      assert results[..i][..i - 1] == results[..i - 1];
    }
  }
}
