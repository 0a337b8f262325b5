/** The task protocol as an interleaved transition system. Clients draw ids, register, post, receive, let go and
    cancel; the loop thread takes requests, handles them, and calls `update_slots`, of which only the trace is
    seen. Every step is one stretch of code under one lock. A step that cannot be taken leaves the state alone,
    so a run is any sequence of steps. */
module Protocol {
  import opened Wrappers
  import opened Slots
  import opened TaskQueue
  import opened ResultQueue
  import opened Traces

  /** Where a client is with a task: it has an id, waits for results, has posted, has its final result, has let go. */
  datatype Stage = Drawn | Registered | Submitted | Answered | Gone

  /** How a task ended: with its slot's answer, by a cancel, or because it could not be launched. */
  datatype End = Replied | Cancelled | Failed

  /** The loop thread: about to look at the queue, holding a request, at the start of `update_slots`, about to post
      the wake-up, in the middle of `update_slots`, or about to wait. */
  datatype Pc = Picking | Handling(request: Request) | Starting | Posting(id: int) | Updating | Resting

  /** Queues, result box, `id_task` of every slot, the tasks of busy slots, the loop thread; and for the statements
      the stage of each task, what its client received, everything sent, and how tasks ended. */
  datatype System = System(q: Queues, box: Box, ids: seq<int>, watch: Watch, pc: Pc, stage: map<int, Stage>,
                           got: map<int, seq<Reply>>, told: seq<Result>, done: map<int, End>)

  function Init(n: nat): (st: System)
    ensures |st.ids| == |st.watch.busy| == n
  {
    System(Queues(0, [], []), Box({}, []), seq(n, _ => -1), Watch(seq(n, _ => None), Nothing), Resting, map[], map[],
      [], map[])
  }

  predicate WasPosted(st: System, id: int) {
    id in st.stage && (st.stage[id] == Submitted || st.stage[id] == Answered || st.stage[id] == Gone)
  }

  function Got(st: System, id: int): seq<Reply> { if id in st.got then st.got[id] else [] }

  // ------------------------------------------------------------------ clients

  datatype Step =
    | NewId | Register(id: int) | Post(task: Task, pin: int) | Receive(id: int) | Remove(id: int) | PostCancel(id: int)
    | Pop | Handle(slot: nat, ok: bool) | Begin | Wake | Tell(event: Event) | Finish | Rest

  // get_new_id
  function DoNewId(st: System): System {
    st.(q := st.q.(nextId := st.q.nextId + 1), stage := st.stage[st.q.nextId := Drawn])
  }

  // add_waiting_tasks
  function DoRegister(st: System, id: int): System {
    if id in st.stage && st.stage[id] == Drawn
    then st.(box := st.box.(waiting := st.box.waiting + {id}), stage := st.stage[id := Registered])
    else st
  }

  function DoPost(st: System, task: Task, pin: int): System {
    if task.id in st.stage && st.stage[task.id] == Registered
    then st.(q := Posted(st.q, Run(task, pin), false), stage := st.stage[task.id := Submitted])
    else st
  }

  /** `recv`; if there is nothing for the task the client goes on waiting. */
  function DoReceive(st: System, id: int): System {
    if id !in st.stage || st.stage[id] != Submitted then st else
    var (res, box) := Received(st.box, {id});
    if res.None? then st else
    st.(box := box, got := st.got[id := Got(st, id) + [res.value.reply]],
        stage := if res.value.reply.Partial? then st.stage else st.stage[id := Answered])
  }

  /** `remove_waiting_task_id`, by a release, after a final result, or as part of a cancel. */
  function DoRemove(st: System, id: int): System {
    if WasPosted(st, id) then st.(box := RemovedFrom(st.box, id), stage := st.stage[id := Gone]) else st
  }

  /** The second half of `cancel_tasks`: a request with highest priority. */
  function DoPostCancel(st: System, id: int): System {
    if id in st.stage && st.stage[id] == Gone then st.(q := PostedAll(st.q, [Cancel(-1, id)], true, 1)) else st
  }

  // ------------------------------------------------------------------ the loop thread

  function DoPop(st: System): System {
    if st.pc == Picking && st.q.tasks != []
    then st.(q := st.q.(tasks := st.q.tasks[1..]), pc := Handling(st.q.tasks[0]))
    else st
  }

  predicate AnyIdle(busy: seq<Option<int>>) { exists i :: 0 <= i < |busy| && busy[i].None? }

  /** Which slots an inference task can be given: its own if it is pinned, or any idle one; without one it is
      deferred. */
  predicate CanTake(st: System, pin: int, slot: nat) {
    slot < |st.watch.busy| && st.watch.busy[slot].None? && (pin == -1 || pin == slot)
  }

  predicate MustDefer(st: System, pin: int) {
    if pin == -1 then !AnyIdle(st.watch.busy) else !(0 <= pin < |st.watch.busy| && st.watch.busy[pin].None?)
  }

  function DoRun(st: System, task: Task, pin: int, slot: nat, ok: bool): System
    requires |st.ids| == |st.watch.busy|
  {
    if MustDefer(st, pin) then st.(q := st.q.(deferred := st.q.deferred + [Run(task, pin)]), pc := Picking)
    else if !CanTake(st, pin, slot) then st
    else if ok then
      st.(ids := st.ids[slot := task.id], watch := st.watch.(busy := st.watch.busy[slot := Some(task.id)]),
        pc := Picking)
    else
      var r := Result(task.id, Error(BadGrammar));
      st.(ids := st.ids[slot := task.id], box := SentTo(st.box, r), told := st.told + [r],
          done := st.done[task.id := Failed], pc := Picking)
  }

  /** The first slot that runs or last ran the task. */
  function SlotWith(ids: seq<int>, task: int, i: nat): (r: nat)
    requires i <= |ids|
    ensures i <= r <= |ids| && (r < |ids| ==> ids[r] == task)
    ensures forall k :: i <= k < r ==> ids[k] != task
    decreases |ids| - i
  {
    if i == |ids| || ids[i] == task then i else SlotWith(ids, task, i + 1)
  }

  function DoCancel(st: System, target: int): System
    requires |st.ids| == |st.watch.busy|
  {
    var i := SlotWith(st.ids, target, 0);
    if i == |st.ids| || st.watch.busy[i].None? then st.(pc := Picking)
    else st.(q := Undeferred(st.q), watch := st.watch.(busy := st.watch.busy[i := None]),
             done := st.done[target := Cancelled], pc := Picking)
  }

  // process_single_task
  function DoHandle(st: System, slot: nat, ok: bool): System
    requires |st.ids| == |st.watch.busy|
  {
    if !st.pc.Handling? then st else
    match st.pc.request
    case Run(task, pin) => DoRun(st, task, pin, slot, ok)
    case Cancel(_, target) => DoCancel(st, target)
    case NextResponse(_) => st.(pc := Picking)
  }

  /** The queue is empty: `update_slots` is called, and returns at once if every slot is idle. */
  function DoBegin(st: System): System {
    if st.pc == Picking && st.q.tasks == [] then st.(pc := Starting)
    else if st.pc == Starting then
      if forall i :: 0 <= i < |st.watch.busy| ==> st.watch.busy[i].None? then st.(pc := Resting)
      else st.(q := st.q.(nextId := st.q.nextId + 1), pc := Posting(st.q.nextId))
    else st
  }

  function DoWake(st: System): System {
    if st.pc.Posting? then st.(q := Posted(st.q, NextResponse(st.pc.id), false), pc := Updating) else st
  }

  /** One event of `update_slots`. A released slot moves a deferred task back into the queue. */
  function DoTell(st: System, e: Event): System {
    if st.pc != Updating || Move(st.watch, e).None? then st else
    var w := Move(st.watch, e).value;
    match e
    case Released(i) => st.(q := Undeferred(st.q), watch := w, done := st.done[st.watch.busy[i].value := Replied])
    case Sent(t, reply) =>
      st.(box := SentTo(st.box, Result(t, reply)), watch := w, told := st.told + [Result(t, reply)])
    case _ => st.(watch := w)
  }

  function DoFinish(st: System): System {
    if st.pc == Updating && st.watch.due.Nothing? then st.(pc := Resting) else st
  }

  /** The wait ends when there is something in the queue. */
  function DoRest(st: System): System {
    if st.pc == Resting && st.q.tasks != [] then st.(pc := Picking) else st
  }

  function Next(st: System, s: Step): (r: System)
    requires |st.ids| == |st.watch.busy|
    ensures |r.ids| == |r.watch.busy| == |st.ids|
  {
    match s
    case NewId => DoNewId(st)
    case Register(id) => DoRegister(st, id)
    case Post(task, pin) => DoPost(st, task, pin)
    case Receive(id) => DoReceive(st, id)
    case Remove(id) => DoRemove(st, id)
    case PostCancel(id) => DoPostCancel(st, id)
    case Pop => DoPop(st)
    case Handle(slot, ok) => DoHandle(st, slot, ok)
    case Begin => DoBegin(st)
    case Wake => DoWake(st)
    case Tell(e) => DoTell(st, e)
    case Finish => DoFinish(st)
    case Rest => DoRest(st)
  }

  function After(st: System, steps: seq<Step>): (r: System)
    requires |st.ids| == |st.watch.busy|
    ensures |r.ids| == |r.watch.busy| == |st.ids|
    decreases |steps|
  {
    if steps == [] then st else Next(After(st, steps[..|steps| - 1]), steps[|steps| - 1])
  }

  /** The loop thread waits on an empty queue. */
  predicate Asleep(st: System) { st.pc == Resting && st.q.tasks == [] }

  // ------------------------------------------------------------------ `update_slots` is such a run

  function Telling(events: seq<Event>): (r: seq<Step>)
    ensures |r| == |events| && forall i :: 0 <= i < |r| ==> r[i] == Tell(events[i])
  {
    seq(|events|, i requires 0 <= i < |events| => Tell(events[i]))
  }

  lemma {:induction false} AfterConcat(st: System, a: seq<Step>, b: seq<Step>)
    requires |st.ids| == |st.watch.busy|
    ensures After(st, a + b) == After(After(st, a), b)
    decreases |b|
  {
    if b == [] {
      assert a + b == a;
    } else {
      AfterConcat(st, a, b[..|b| - 1]);
      assert (a + b)[..|a + b| - 1] == a + b[..|b| - 1];
    }
  }

  /** One step more. */
  lemma RunsOn(st: System, steps: seq<Step>, s: Step)
    requires |st.ids| == |st.watch.busy|
    ensures After(st, steps + [s]) == Next(After(st, steps), s)
  {
    assert (steps + [s])[..|steps|] == steps;
  }

  lemma LegalEventRuns(st: System, e: Event)
    requires |st.ids| == |st.watch.busy| && st.pc == Updating && Move(st.watch, e).Some?
    ensures var r := Next(st, Tell(e)); r.pc == Updating && r.watch == Move(st.watch, e).value && r.ids == st.ids
  {
  }

  /** A legal trace is taken event by event and leads where it says. */
  lemma {:induction false} LegalTraceRuns(st: System, events: seq<Event>)
    requires |st.ids| == |st.watch.busy| && st.pc == Updating && Watched(st.watch, events).Some?
    ensures var r := After(st, Telling(events));
            r.pc == Updating && r.watch == Watched(st.watch, events).value && r.ids == st.ids
    decreases |events|
  {
    if events != [] {
      var front := events[..|events| - 1];
      LegalTraceRuns(st, front);
      assert Telling(events)[..|events| - 1] == Telling(front);
      LegalEventRuns(After(st, Telling(front)), events[|events| - 1]);
    }
  }
}
