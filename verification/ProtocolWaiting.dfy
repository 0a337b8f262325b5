/** While a task is deferred, how many slots can be idle: no more than inference tasks are on their way to them. This
    holds in every interleaving of free tasks whose launches succeed, and breaks exactly when the loop thread passes
    over a slot: when it defers a pinned task, or fails to launch one, beside more idle slots than queued tasks. */
module ProtocolWaiting {
  import opened Wrappers
  import opened Slots
  import opened TaskQueue
  import opened Traces
  import opened Protocol
  import opened ProtocolSafety
  import opened ProtocolSleep

  /** If a task is deferred, every idle slot has an inference task that is queued or in the thread's hands. */
  predicate Served(st: System) {
    st.q.deferred != [] ==> Idles(st.watch.busy) <= RunCount(st.q.tasks) + HandRun(st.pc)
  }

  /** The thread lays the task in its hands aside, deferred or failed, although more slots are idle than inference tasks
      are queued, and leaves a task deferred. */
  predicate PassesOver(st: System, s: Step)
    requires |st.ids| == |st.watch.busy|
  {
    && s.Handle? && st.pc.Handling? && st.pc.request.Run?
    && (MustDefer(st, st.pc.request.pin)
        || (CanTake(st, st.pc.request.pin, s.slot) && !s.ok && st.q.deferred != []))
    && Idles(st.watch.busy) > RunCount(st.q.tasks)
  }

  ghost predicate Orderly(st: System) { Shape(st) && AllRuns(st.q.deferred) }

  // ------------------------------------------------------------------ the steps

  lemma PostServes(st: System, task: Task, pin: int)
    requires Orderly(st) && Served(st)
    ensures Served(DoPost(st, task, pin)) && AllRuns(DoPost(st, task, pin).q.deferred)
  {
    RunCountConcat(st.q.tasks, [Run(task, pin)]);
    RunCountOne(Run(task, pin));
  }

  lemma PostCancelServes(st: System, id: int)
    requires Orderly(st) && Served(st)
    ensures Served(DoPostCancel(st, id)) && AllRuns(DoPostCancel(st, id).q.deferred)
  {
    if IsGone(st, id) {
      PostCancelLeavesDeferred(st, id);
      CancelInFront(st.q.tasks, st.q.nextId, id, 0);
    }
  }

  lemma RunServes(st: System, task: Task, pin: int, slot: nat, ok: bool)
    requires Orderly(st) && Served(st) && st.pc == Handling(Run(task, pin))
    ensures var r := DoRun(st, task, pin, slot, ok);
            AllRuns(r.q.deferred) && (Served(r) <==> !PassesOver(st, Handle(slot, ok)))
  {
    if !MustDefer(st, pin) && CanTake(st, pin, slot) { IdlesPut(st.watch.busy, slot, Some(task.id)); }
  }

  /** A slot is freed and a deferred task taken back. */
  lemma FreeingServes(st: System, r: System, i: nat)
    requires Orderly(st) && Served(st) && HandRun(st.pc) == 0 && i < |st.watch.busy| && st.watch.busy[i].Some?
    requires r.q == Undeferred(st.q) && r.watch.busy == st.watch.busy[i := None]
    ensures Served(r) && AllRuns(r.q.deferred)
  {
    IdlesPut(st.watch.busy, i, None);
    UndeferredRoom(st.q, 0);
  }

  lemma HandleServes(st: System, slot: nat, ok: bool)
    requires Orderly(st) && Served(st)
    ensures var r := DoHandle(st, slot, ok);
            AllRuns(r.q.deferred) && (Served(r) <==> !PassesOver(st, Handle(slot, ok)))
  {
    if st.pc.Handling? {
      match st.pc.request
      case Run(task, pin) => RunServes(st, task, pin, slot, ok);
      case Cancel(_, target) =>
        var i := SlotWith(st.ids, target, 0);
        if i < |st.ids| && st.watch.busy[i].Some? { FreeingServes(st, DoCancel(st, target), i); }
      case NextResponse(_) =>
    }
  }

  lemma TellServes(st: System, e: Event)
    requires Orderly(st) && Served(st)
    ensures Served(DoTell(st, e)) && AllRuns(DoTell(st, e).q.deferred)
  {
    if st.pc == Updating && Move(st.watch, e).Some? && e.Released? { FreeingServes(st, DoTell(st, e), e.slot); }
  }

  lemma WakeServes(st: System)
    requires Orderly(st) && Served(st)
    ensures Served(DoWake(st)) && AllRuns(DoWake(st).q.deferred)
  {
    if st.pc.Posting? {
      RunCountConcat(st.q.tasks, [NextResponse(st.pc.id)]);
      RunCountOne(NextResponse(st.pc.id));
    }
  }

  /** A step keeps the bound exactly if it does not pass over a slot. */
  lemma StepServesExactly(st: System, s: Step)
    requires Orderly(st) && Served(st)
    ensures Orderly(Next(st, s)) && (Served(Next(st, s)) <==> !PassesOver(st, s))
  {
    ShapeKept(st, s);
    hide Shape, DoPost, DoPostCancel, DoHandle, DoWake, DoTell;
    match s
    case Post(task, pin) => PostServes(st, task, pin);
    case PostCancel(id) => PostCancelServes(st, id);
    case Pop => if st.q.tasks != [] { RunCountFirst(st.q.tasks); }
    case Handle(slot, ok) => HandleServes(st, slot, ok);
    case Wake => WakeServes(st);
    case Tell(e) => TellServes(st, e);
    case _ =>
  }

  // ------------------------------------------------------------------ runs

  /** The bound holds at every state of the run. */
  predicate ServedAlways(st: System, steps: seq<Step>)
    requires |st.ids| == |st.watch.busy|
    decreases |steps|
  {
    Served(After(st, steps)) && (steps == [] || ServedAlways(st, steps[..|steps| - 1]))
  }

  predicate NeverPassesOver(st: System, steps: seq<Step>)
    requires |st.ids| == |st.watch.busy|
    decreases |steps|
  {
    steps == []
    || (NeverPassesOver(st, steps[..|steps| - 1]) && !PassesOver(After(st, steps[..|steps| - 1]), steps[|steps| - 1]))
  }

  /** In every interleaving, with any pins and any failing launches: at every state with a deferred task there are at
      most as many idle slots as inference tasks on their way, exactly if the thread never passes over a slot. */
  lemma {:induction false} WaitingIsServedExactly(n: nat, steps: seq<Step>)
    ensures ServedAlways(Init(n), steps) <==> NeverPassesOver(Init(n), steps)
    ensures ServedAlways(Init(n), steps) ==> Orderly(After(Init(n), steps))
    decreases |steps|
  {
    if steps != [] {
      var front := steps[..|steps| - 1];
      WaitingIsServedExactly(n, front);
      hide Init, Next, Served, PassesOver;
      if ServedAlways(Init(n), front) { StepServesExactly(After(Init(n), front), steps[|steps| - 1]); }
    }
  }

  // ------------------------------------------------------------------ free tasks

  predicate Unpinned(r: Request) { r.Run? ==> r.pin == -1 }

  predicate AllUnpinned(st: System) {
    && (forall r :: r in st.q.tasks ==> Unpinned(r)) && (forall r :: r in st.q.deferred ==> Unpinned(r))
    && (st.pc.Handling? ==> Unpinned(st.pc.request))
  }

  lemma {:induction false} SparedAreFrom(rs: seq<Request>, target: int)
    ensures forall r :: r in Spared(rs, target) ==> r in rs
  {
    if rs != [] { SparedAreFrom(rs[..|rs| - 1], target); }
  }

  lemma StepKeepsFree(st: System, s: Step)
    requires |st.ids| == |st.watch.busy| && AllUnpinned(st) && (s.Post? ==> s.pin == -1)
    ensures AllUnpinned(Next(st, s))
  {
    match s
    case PostCancel(id) =>
      PostCancelIs(st, id);
      SparedAreFrom(st.q.tasks, id);
      SparedAreFrom(st.q.deferred, id);
    case Handle(slot, ok) => HandleKeepsFree(st, slot, ok);
    case _ =>
  }

  lemma HandleKeepsFree(st: System, slot: nat, ok: bool)
    requires |st.ids| == |st.watch.busy| && AllUnpinned(st)
    ensures AllUnpinned(DoHandle(st, slot, ok))
  {
  }

  /** A free task is deferred only when no slot is idle. */
  lemma FreeIsNotPassedOver(st: System, s: Step)
    requires |st.ids| == |st.watch.busy| && AllUnpinned(st) && Launches(s)
    ensures !PassesOver(st, s)
  {
    NoIdles(st.watch.busy);
  }

  lemma {:induction false} FreeNeverPassesOver(n: nat, steps: seq<Step>)
    requires forall j :: 0 <= j < |steps| ==> Launches(steps[j]) && (steps[j].Post? ==> steps[j].pin == -1)
    ensures NeverPassesOver(Init(n), steps) && AllUnpinned(After(Init(n), steps))
    decreases |steps|
  {
    if steps != [] {
      var front := steps[..|steps| - 1];
      FreeNeverPassesOver(n, front);
      hide Init, Next, PassesOver, AllUnpinned;
      FreeIsNotPassedOver(After(Init(n), front), steps[|steps| - 1]);
      StepKeepsFree(After(Init(n), front), steps[|steps| - 1]);
    }
  }

  /** In every interleaving of free tasks whose launches succeed, at every state: if a task is deferred, no more slots
      are idle than inference tasks are queued or in the thread's hands. */
  lemma FreeTasksWaitForBusySlots(n: nat, steps: seq<Step>)
    requires forall j :: 0 <= j < |steps| ==> Launches(steps[j]) && (steps[j].Post? ==> steps[j].pin == -1)
    ensures var st := After(Init(n), steps);
            st.q.deferred != [] ==> Idles(st.watch.busy) <= RunCount(st.q.tasks) + HandRun(st.pc)
  {
    FreeNeverPassesOver(n, steps);
    WaitingIsServedExactly(n, steps);
  }

  // ------------------------------------------------------------------ a pinned task is passed over

  lemma Takes(start: System, steps: seq<Step>, st: System, r: Request, slot: nat) returns (more: seq<Step>,
        next: System)
    requires |start.ids| == |start.watch.busy| && st == After(start, steps) && r.Run?
    requires st.pc == Picking && st.q.tasks != [] && st.q.tasks[0] == r && CanTake(st, r.pin, slot)
    ensures next == After(start, more) && next.pc == Picking && next.q == st.q.(tasks := st.q.tasks[1..])
    ensures next.watch == st.watch.(busy := st.watch.busy[slot := Some(r.task.id)]) && |next.ids| == |st.ids|
  {
    hide After;
    more, next := Go(start, steps, st, Pop);
    assert !MustDefer(next, r.pin);
    more, next := Go(start, more, next, Handle(slot, true));
  }

  lemma LaysAside(start: System, steps: seq<Step>, st: System, r: Request) returns (more: seq<Step>, next: System)
    requires |start.ids| == |start.watch.busy| && st == After(start, steps) && r.Run?
    requires st.pc == Picking && st.q.tasks != [] && st.q.tasks[0] == r && MustDefer(st, r.pin)
    ensures next == After(start, more) && next.pc == Picking && next.watch == st.watch && |next.ids| == |st.ids|
    ensures next.q == Queues(st.q.nextId, st.q.tasks[1..], st.q.deferred + [r])
  {
    hide After;
    more, next := Go(start, steps, st, Pop);
    assert MustDefer(next, r.pin);
    more, next := Go(start, more, next, Handle(0, true));
  }

  lemma CallStarts(start: System, steps: seq<Step>, st: System) returns (more: seq<Step>, next: System)
    requires |start.ids| == |start.watch.busy| && st == After(start, steps)
    requires st.pc == Picking && st.q.tasks == [] && AnyBusy(st.watch.busy)
    ensures next == After(start, more) && next.pc == Updating && |next.ids| == |st.ids| && next.watch == st.watch
    ensures next.q == Queues(st.q.nextId + 1, [NextResponse(st.q.nextId)], st.q.deferred)
  {
    hide After;
    more, next := Go(start, steps, st, Begin);
    more, next := Go(start, more, next, Begin);
    more, next := Go(start, more, next, Wake);
  }

  lemma FirstIsFreed(start: System, steps: seq<Step>, st: System, a: int, d: Request, e: Request)
      returns (more: seq<Step>, next: System)
    requires |start.ids| == |start.watch.busy| == 2 && st == After(start, steps)
    requires st.pc == Updating && st.q.deferred == [d, e]
    requires st.watch.due.Nothing? && st.watch.busy[0] == Some(a)
    ensures next == After(start, more) && next.pc == Resting && |next.ids| == 2
    ensures next.watch == st.watch.(busy := st.watch.busy[0 := None])
    ensures next.q == Queues(st.q.nextId, st.q.tasks + [d], [e])
  {
    hide After;
    more, next := Go(start, steps, st, Tell(Released(0)));
    more, next := Go(start, more, next, Tell(Sent(a, Final([], TextStream.Limit, 1))));
    more, next := Go(start, more, next, Finish);
  }

  lemma WakesUp(start: System, steps: seq<Step>, st: System) returns (more: seq<Step>, next: System)
    requires |start.ids| == |start.watch.busy| && st == After(start, steps)
    requires st.pc == Resting && st.q.tasks != [] && st.q.tasks[0].NextResponse?
    ensures next == After(start, more) && next.pc == Picking && |next.ids| == |st.ids| && next.watch == st.watch
    ensures next.q == st.q.(tasks := st.q.tasks[1..])
  {
    hide After;
    more, next := Go(start, steps, st, Rest);
    more, next := Go(start, more, next, Pop);
    more, next := Go(start, more, next, Handle(0, true));
  }

  /** A call answers the task of the first slot; the thread then handles the wake-up. */
  lemma FirstAnswers(start: System, steps: seq<Step>, st: System, a: int, b: int, d: Request, e: Request)
      returns (more: seq<Step>, next: System)
    requires |start.ids| == |start.watch.busy| == 2 && st == After(start, steps)
    requires st.pc == Picking && st.q.tasks == [] && st.q.deferred == [d, e]
    requires st.watch == Watch([Some(a), Some(b)], Nothing)
    ensures next == After(start, more) && next.pc == Picking && |next.ids| == 2
    ensures next.watch == Watch([None, Some(b)], Nothing) && next.q.tasks == [d] && next.q.deferred == [e]
  {
    hide After;
    assert st.watch.busy[1].Some?;
    more, next := CallStarts(start, steps, st);
    more, next := FirstIsFreed(start, more, next, a, d, e);
    more, next := WakesUp(start, more, next);
  }

  lemma FourPosted(a: Task, b: Task, p: Task, f: Task) returns (steps: seq<Step>, st: System)
    requires a.id == 0 && b.id == 1 && p.id == 2 && f.id == 3
    ensures st == After(Init(2), steps) && |st.ids| == 2 && st.pc == Picking
    ensures st.watch == Watch([None, None], Nothing)
    ensures st.q == Queues(4, [Run(a, -1), Run(b, -1), Run(p, 1), Run(f, -1)], [])
  {
    var start := Init(2);
    steps, st := [], start;
    hide After, Init;
    steps, st := ClientPosts(start, steps, st, a, -1);
    steps, st := ClientPosts(start, steps, st, b, -1);
    steps, st := ClientPosts(start, steps, st, p, 1);
    steps, st := ClientPosts(start, steps, st, f, -1);
    steps, st := Go(start, steps, st, Rest);
  }

  lemma BothBusy(a: Task, b: Task, p: Task, f: Task) returns (steps: seq<Step>, st: System)
    requires a.id == 0 && b.id == 1 && p.id == 2 && f.id == 3
    ensures st == After(Init(2), steps) && |st.ids| == 2 && st.pc == Picking
    ensures st.watch == Watch([Some(0), Some(1)], Nothing) && st.q == Queues(4, [], [Run(p, 1), Run(f, -1)])
  {
    var start := Init(2);
    hide After, Init;
    steps, st := FourPosted(a, b, p, f);
    steps, st := Takes(start, steps, st, Run(a, -1), 0);
    steps, st := Takes(start, steps, st, Run(b, -1), 1);
    steps, st := LaysAside(start, steps, st, Run(p, 1));
    steps, st := LaysAside(start, steps, st, Run(f, -1));
  }

  /** Why a pin to a slot that exists breaks the bound: two slots are busy, a task pinned to the second and a free one
      are deferred in this order, and the first slot is released. The pinned one is taken back and deferred again, and
      the free one waits beside an idle slot with nothing queued. */
  lemma PinnedTaskIsPassedOver(a: Task, b: Task, p: Task, f: Task) returns (steps: seq<Step>)
    requires a.id == 0 && b.id == 1 && p.id == 2 && f.id == 3
    ensures var st := After(Init(2), steps);
            && st.watch.busy == [None, Some(1)] && st.pc == Picking
            && st.q.tasks == [] && st.q.deferred == [Run(f, -1), Run(p, 1)] && !Served(st)
  {
    var start, st := Init(2), Init(2);
    steps, st := BothBusy(a, b, p, f);
    hide After, Init;
    steps, st := FirstAnswers(start, steps, st, 0, 1, Run(p, 1), Run(f, -1));
    steps, st := LaysAside(start, steps, st, Run(p, 1));
    IdlesPut([Some(0), Some(1)], 0, None);
    assert [Some(0), Some(1)][0 := None] == [None, Some(1)];
  }
}
