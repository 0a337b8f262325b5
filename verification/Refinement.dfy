/** A call of `update_slots` is a run of the protocol: what the objects do to slots and queues in one piece is what
    the interleaved system does event by event. */
module Refinement {
  import opened Wrappers
  import opened Slots
  import opened UpdateSlots
  import opened TaskQueue
  import opened ResultQueue
  import opened Traces
  import opened ContextSteps
  import opened Protocol
  import opened Drain

  lemma {:induction false} TraceMovesQueues(st: System, events: seq<Event>)
    requires |st.ids| == |st.watch.busy| && st.pc == Updating && Watched(st.watch, events).Some?
    ensures var r := After(st, Telling(events)); (r.q, r.box) == QueuesAfter((st.q, st.box), events)
    decreases |events|
  {
    if events != [] {
      var front := events[..|events| - 1];
      TraceMovesQueues(st, front);
      LegalTraceRuns(st, front);
      assert Telling(events)[..|events| - 1] == Telling(front);
    }
  }

  lemma {:induction false} BeginsAndWakes(st: System)
    requires |st.ids| == |st.watch.busy| && st.pc == Starting
    requires exists i :: 0 <= i < |st.watch.busy| && st.watch.busy[i].Some?
    ensures After(st, [Begin, Wake]) == st.(q := WakePosted(st.q), pc := Updating)
  {
    assert [Begin, Wake][..1] == [Begin] && [Begin][..0] == [];
  }

  lemma Finishes(st: System)
    requires |st.ids| == |st.watch.busy| && st.pc == Updating && st.watch.due.Nothing?
    ensures After(st, [Finish]) == st.(pc := Resting)
  {
    assert [Finish][..0] == [];
  }

  /** The steps of a call with these events. */
  function CallSteps(events: seq<Event>): seq<Step> { [Begin, Wake] + (Telling(events) + [Finish]) }

  /** From any state of the protocol in which the loop thread starts `update_slots` and the busy slots are those of
      the server, the call of the concrete server is taken step by step: it ends with the busy slots, the queue
      and the result box that the call computes. */
  lemma CallIsProtocolRun(cfg: Config, sv: Server, o: Oracle, st: System)
    requires Valid(sv) && !AllIdle(sv.slots) && !Update(cfg, sv, o).fatal
    requires |st.ids| == |st.watch.busy| && st.pc == Starting && st.watch == Steady(sv.slots)
    ensures var r := Update(cfg, sv, o);
            var end := After(st, CallSteps(r.events));
            && end.pc == Resting && end.watch == Steady(r.server.slots)
            && (end.q, end.box) == QueuesAfter((WakePosted(st.q), st.box), r.events)
  {
    var events := Update(cfg, sv, o).events;
    UpdateIsLegal(cfg, sv, o);
    var k :| 0 <= k < |sv.slots| && Processing(sv.slots[k]);
    assert st.watch.busy[k].Some?;
    BeginsAndWakes(st);
    var a := After(st, [Begin, Wake]);
    LegalTraceRuns(a, events);
    TraceMovesQueues(a, events);
    Finishes(After(a, Telling(events)));
    AfterConcat(a, Telling(events), [Finish]);
    AfterConcat(st, [Begin, Wake], Telling(events) + [Finish]);
  }

  // ------------------------------------------------------------------ requests

  function Ids(slots: seq<Slot>): (r: seq<int>)
    ensures |r| == |slots| && forall i :: 0 <= i < |r| ==> r[i] == slots[i].idTask
  {
    seq(|slots|, i requires 0 <= i < |slots| => slots[i].idTask)
  }

  /** The protocol's view of slots and queues. */
  predicate Shows(st: System, slots: seq<Slot>, q: Queues, box: Box) {
    st.ids == Ids(slots) && st.watch == Steady(slots) && st.q == q && st.box == box
  }

  /** An inference task that `ServerContext.ProcessRun` handles as `RunHandled` says is handled by a step of the
      protocol, and if the launch succeeds by one of the loop thread alone. */
  lemma RunIsProtocolStep(cfg: Config, slots: seq<Slot>, st: System, task: Task, pin: int, on: Option<nat>, ok: bool)
    requires st.pc == Handling(Request.Run(task, pin)) && Shows(st, slots, st.q, st.box)
    requires if on.None? then MustDefer(st, pin) else CanTake(st, pin, on.value)
    ensures var (after, q, box) := RunHandled(cfg, slots, st.q, st.box, task, pin, on, ok);
            var r := DoHandle(st, if on.Some? then on.value else 0, ok);
            Shows(r, after, q, box) && r.pc == Picking
  {
    if on.Some? {
      var i, t := on.value, Launch(cfg, slots[on.value], task, ok);
      assert !Processing(slots[i]) && !MustDefer(st, pin);
      assert Ids(slots[i := t]) == Ids(slots)[i := task.id];
      assert Tasks(slots[i := t]) == Tasks(slots)[i := TaskOf(t)];
      if !ok { assert Tasks(slots)[i := None] == Tasks(slots); }
    }
  }

  lemma RunIsThreadStep(cfg: Config, m: Machine, c: Choice, box: Box)
    requires m.q.tasks != [] && m.q.tasks[0].Run? && Valid(m.server)
    ensures var r, slots := m.q.tasks[0], m.server.slots;
            var i := SlotFor(slots, r.pin, c.slot);
            var (after, q, _) := RunHandled(cfg, slots, m.q.(tasks := m.q.tasks[1..]), box, r.task, r.pin,
                                            if i < |slots| then Some(i) else None, true);
            TakeOne(cfg, m, c) == Machine(m.server.(slots := after), q)
  {
  }

  lemma SameSlot(slots: seq<Slot>, target: int, i: nat)
    requires i <= |slots|
    ensures SlotWith(Ids(slots), target, i) == SlotOf(slots, target, i)
    decreases |slots| - i
  {
    if i < |slots| && slots[i].idTask != target { SameSlot(slots, target, i + 1); }
  }

  /** And a cancel. */
  lemma CancelIsProtocolStep(slots: seq<Slot>, st: System, id: int, target: int)
    requires st.pc == Handling(Request.Cancel(id, target)) && Shows(st, slots, st.q, st.box)
    ensures var (after, q) := CancelHandled(slots, st.q, target);
            var r := DoHandle(st, 0, true);
            Shows(r, after, q, st.box) && r.pc == Picking
  {
    SameSlot(slots, target, 0);
    var i := SlotOf(slots, target, 0);
    if i < |slots| {
      var t := Release(slots[i]);
      assert Ids(slots[i := t]) == Ids(slots);
      assert Tasks(slots[i := t]) == Tasks(slots)[i := None];
      if !Processing(slots[i]) { assert Tasks(slots)[i := None] == Tasks(slots); }
    }
  }
}
