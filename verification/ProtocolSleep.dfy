/** When the loop thread may sleep: with tasks that can be launched and are not pinned to a slot that does not exist,
    it waits on an empty queue only when every slot is idle and nothing is deferred, in every interleaving. */
module ProtocolSleep {
  import opened Wrappers
  import opened Slots
  import opened TaskQueue
  import opened Traces
  import opened Protocol
  import opened ProtocolSafety

  function RunCount(rs: seq<Request>): nat {
    if rs == [] then 0 else RunCount(rs[..|rs| - 1]) + if rs[|rs| - 1].Run? then 1 else 0
  }

  function Idles(busy: seq<Option<int>>): nat {
    if busy == [] then 0 else Idles(busy[..|busy| - 1]) + if busy[|busy| - 1].None? then 1 else 0
  }

  lemma {:induction false} RunCountConcat(a: seq<Request>, b: seq<Request>)
    ensures RunCount(a + b) == RunCount(a) + RunCount(b)
    decreases |b|
  {
    if b == [] {
      assert a + b == a;
    } else {
      RunCountConcat(a, b[..|b| - 1]);
      assert (a + b)[..|a + b| - 1] == a + b[..|b| - 1];
    }
  }

  lemma RunCountOne(r: Request)
    ensures RunCount([r]) == if r.Run? then 1 else 0
  {
    assert [r][..0] == [];
  }

  lemma RunCountFirst(rs: seq<Request>)
    requires rs != []
    ensures RunCount(rs) == RunCount(rs[1..]) + if rs[0].Run? then 1 else 0
  {
    assert rs == [rs[0]] + rs[1..];
    RunCountConcat([rs[0]], rs[1..]);
    RunCountOne(rs[0]);
  }

  lemma {:induction false} IdlesPut(busy: seq<Option<int>>, i: nat, x: Option<int>)
    requires i < |busy|
    ensures Idles(busy[i := x]) + (if busy[i].None? then 1 else 0) == Idles(busy) + if x.None? then 1 else 0
  {
    var n := |busy| - 1;
    if i < n {
      IdlesPut(busy[..n], i, x);
      assert busy[i := x][..n] == busy[..n][i := x];
    } else {
      assert busy[i := x][..n] == busy[..n];
    }
  }

  lemma {:induction false} NoIdles(busy: seq<Option<int>>)
    ensures Idles(busy) == 0 <==> !AnyIdle(busy)
  {
    if busy != [] {
      var front := busy[..|busy| - 1];
      NoIdles(front);
      if AnyIdle(front) {
        var i :| 0 <= i < |front| && front[i].None?;
        assert busy[i].None?;
      }
    }
  }

  /** The task can be given to some slot out of `n`: to the one it is pinned to, or to any. */
  predicate Housed(r: Request, n: nat) { r.Run? ==> -1 <= r.pin < n }

  predicate AllHoused(rs: seq<Request>, n: nat) { forall j :: 0 <= j < |rs| ==> Housed(rs[j], n) }

  predicate AllRuns(rs: seq<Request>) { forall j :: 0 <= j < |rs| ==> rs[j].Run? }

  predicate HasWake(rs: seq<Request>) { exists j :: 0 <= j < |rs| && rs[j].NextResponse? }

  function HandRun(pc: Pc): nat { if pc.Handling? && pc.request.Run? then 1 else 0 }

  predicate AnyBusy(busy: seq<Option<int>>) { exists i :: 0 <= i < |busy| && busy[i].Some? }

  /** If a task is deferred, there is a slot to be released or a task that will be looked at. */
  predicate Room(st: System) {
    st.q.deferred != [] ==> AnyBusy(st.watch.busy) || RunCount(st.q.tasks) + HandRun(st.pc) > 0
  }

  /** `update_slots` left a wake-up in the queue if it found a busy slot. */
  predicate Woken(st: System) {
    && (st.pc == Updating ==> HasWake(st.q.tasks))
    && (st.pc == Resting ==> HasWake(st.q.tasks) || !AnyBusy(st.watch.busy))
  }

  predicate Free(st: System) {
    && AllHoused(st.q.tasks, |st.ids|) && AllHoused(st.q.deferred, |st.ids|)
    && (st.pc.Handling? ==> Housed(st.pc.request, |st.ids|))
  }

  /** What does not depend on pins. */
  ghost predicate AwakeOk(st: System) { Shape(st) && AllRuns(st.q.deferred) && Woken(st) && |st.ids| > 0 }

  ghost predicate SleepOk(st: System) { AwakeOk(st) && Free(st) && Room(st) }

  /** The step posts no task for a slot that does not exist. */
  predicate Posts(st: System, s: Step) { s.Post? && s.task.id in st.stage && st.stage[s.task.id] == Registered }

  predicate PinExists(st: System, s: Step) { Posts(st, s) ==> -1 <= s.pin < |st.ids| }

  /** Launches succeed. */
  predicate Launches(s: Step) { s.Handle? ==> s.ok }

  // ------------------------------------------------------------------ requests that move

  lemma {:induction false} SparedCount(rs: seq<Request>, target: int)
    requires target != -1
    ensures RunCount(Spared(rs, target)) == RunCount(rs)
  {
    if rs != [] {
      SparedCount(rs[..|rs| - 1], target);
      RunCountConcat(Spared(rs[..|rs| - 1], target), [rs[|rs| - 1]]);
      RunCountOne(rs[|rs| - 1]);
    }
  }

  lemma {:induction false} SparedHoused(rs: seq<Request>, target: int, n: nat)
    requires AllHoused(rs, n)
    ensures AllHoused(Spared(rs, target), n)
  {
    if rs != [] { SparedHoused(rs[..|rs| - 1], target, n); }
  }

  lemma {:induction false} SparedRuns(rs: seq<Request>, target: int)
    requires target != -1 && AllRuns(rs)
    ensures Spared(rs, target) == rs
  {
    if rs != [] { SparedRuns(rs[..|rs| - 1], target); }
  }

  lemma {:induction false} SparedKeepsWake(rs: seq<Request>, target: int)
    requires target != -1 && HasWake(rs)
    ensures HasWake(Spared(rs, target))
  {
    var front, last := rs[..|rs| - 1], rs[|rs| - 1];
    var j :| 0 <= j < |rs| && rs[j].NextResponse?;
    if j < |front| {
      assert front[j].NextResponse?;
      SparedKeepsWake(front, target);
      var k :| 0 <= k < |Spared(front, target)| && Spared(front, target)[k].NextResponse?;
      assert Spared(rs, target)[k].NextResponse?;
    } else {
      assert Spared(rs, target)[|Spared(front, target)|].NextResponse?;
    }
  }

  lemma UndeferredRoom(q: Queues, n: nat)
    requires AllRuns(q.deferred)
    ensures var r := Undeferred(q);
            && AllRuns(r.deferred)
            && (AllHoused(q.tasks, n) && AllHoused(q.deferred, n) ==> AllHoused(r.tasks, n) && AllHoused(r.deferred, n))
            && RunCount(r.tasks) == RunCount(q.tasks) + (if q.deferred != [] then 1 else 0)
            && (q.deferred == [] ==> r == q)
            && (HasWake(q.tasks) ==> HasWake(r.tasks))
  {
    if q.deferred != [] {
      RunCountConcat(q.tasks, [q.deferred[0]]);
      RunCountOne(q.deferred[0]);
      AppendKeepsWake(q.tasks, q.deferred[0]);
    }
  }

  lemma AppendKeepsWake(rs: seq<Request>, r: Request)
    ensures HasWake(rs) || r.NextResponse? ==> HasWake(rs + [r])
  {
    if r.NextResponse? {
      assert (rs + [r])[|rs|].NextResponse?;
    } else if HasWake(rs) {
      var j :| 0 <= j < |rs| && rs[j].NextResponse?;
      assert (rs + [r])[j].NextResponse?;
    }
  }

  // ------------------------------------------------------------------ the steps

  /** A step keeps what does not depend on pins, and everything if its pin exists. */
  ghost predicate StaysOk(st: System, r: System) {
    AwakeOk(r) && (SleepOk(st) ==> SleepOk(r))
  }

  lemma PostSleepsOk(st: System, task: Task, pin: int)
    requires AwakeOk(st)
    ensures AwakeOk(DoPost(st, task, pin))
    ensures SleepOk(st) && PinExists(st, Post(task, pin)) ==> SleepOk(DoPost(st, task, pin))
  {
    var r := DoPost(st, task, pin);
    ShapeKept(st, Post(task, pin));
    assert Shape(r);
    hide Shape, RunCount, HasWake, AnyBusy;
    RunCountConcat(st.q.tasks, [Run(task, pin)]);
    RunCountOne(Run(task, pin));
    AppendKeepsWake(st.q.tasks, Run(task, pin));
  }

  /** The queue after a cancel was put at its front. */
  lemma CancelInFront(rs: seq<Request>, id: int, target: int, n: nat)
    requires target != -1
    ensures var r := [Cancel(id, target)] + Spared(rs, target);
            && (AllHoused(rs, n) ==> AllHoused(r, n)) && RunCount(r) == RunCount(rs) && (HasWake(rs) ==> HasWake(r))
  {
    var c, kept := Cancel(id, target), Spared(rs, target);
    SparedCount(rs, target);
    if AllHoused(rs, n) { SparedHoused(rs, target, n); }
    RunCountConcat([c], kept);
    RunCountOne(c);
    if HasWake(rs) {
      SparedKeepsWake(rs, target);
      var j :| 0 <= j < |kept| && kept[j].NextResponse?;
      assert ([c] + kept)[j + 1].NextResponse?;
    }
  }

  function CancelledQueue(q: Queues, id: int): Queues {
    Queues(q.nextId + 1, [Cancel(q.nextId, id)] + Spared(q.tasks, id), q.deferred)
  }

  lemma PostCancelLeavesDeferred(st: System, id: int)
    requires IsGone(st, id) && id != -1 && AllRuns(st.q.deferred)
    ensures DoPostCancel(st, id) == st.(q := CancelledQueue(st.q, id))
  {
    PostCancelIs(st, id);
    SparedRuns(st.q.deferred, id);
  }

  lemma PostCancelSleepsOk(st: System, id: int)
    requires AwakeOk(st)
    ensures StaysOk(st, DoPostCancel(st, id))
  {
    if IsGone(st, id) {
      ShapeKept(st, PostCancel(id));
      PostCancelLeavesDeferred(st, id);
      CancelInFront(st.q.tasks, st.q.nextId, id, |st.ids|);
      RequeuedSleepsOk(st, CancelledQueue(st.q, id));
    }
  }

  lemma RequeuedSleepsOk(st: System, q: Queues)
    requires AwakeOk(st) && Shape(st.(q := q)) && q.deferred == st.q.deferred
    requires AllHoused(st.q.tasks, |st.ids|) ==> AllHoused(q.tasks, |st.ids|)
    requires RunCount(q.tasks) == RunCount(st.q.tasks) && (HasWake(st.q.tasks) ==> HasWake(q.tasks))
    ensures StaysOk(st, st.(q := q))
  {
  }

  lemma PopSleepsOk(st: System)
    requires AwakeOk(st)
    ensures StaysOk(st, DoPop(st))
  {
    ShapeKept(st, Pop);
    if st.q.tasks != [] { RunCountFirst(st.q.tasks); }
  }

  lemma DeferredSleepsOk(st: System, task: Task, pin: int)
    requires AwakeOk(st) && st.pc == Handling(Run(task, pin)) && MustDefer(st, pin)
    ensures StaysOk(st, st.(q := st.q.(deferred := st.q.deferred + [Run(task, pin)]), pc := Picking))
  {
    ShapeKept(st, Handle(0, true));
    if Free(st) {
      var i := if pin == -1 then 0 else pin;
      assert st.watch.busy[i].Some?;
    }
  }

  lemma RunSleepsOk(st: System, task: Task, pin: int, slot: nat)
    requires AwakeOk(st) && st.pc == Handling(Run(task, pin))
    ensures StaysOk(st, DoRun(st, task, pin, slot, true))
  {
    ShapeKept(st, Handle(slot, true));
    if MustDefer(st, pin) {
      DeferredSleepsOk(st, task, pin);
    } else if CanTake(st, pin, slot) {
      assert DoRun(st, task, pin, slot, true).watch.busy[slot].Some?;
    }
  }

  /** A slot was freed, and a deferred task taken back. */
  lemma FreedSleepsOk(st: System, r: System)
    requires AwakeOk(st) && Shape(r) && |r.ids| == |st.ids| && r.q == Undeferred(st.q)
    requires (st.pc.Handling? && !st.pc.request.Run? && r.pc == Picking) || (st.pc == Updating && r.pc == Updating)
    ensures StaysOk(st, r)
  {
    UndeferredRoom(st.q, |st.ids|);
  }

  lemma CancelSleepsOk(st: System, target: int)
    requires AwakeOk(st) && st.pc.Handling? && st.pc.request.Cancel? && st.pc.request.target == target
    ensures StaysOk(st, DoCancel(st, target))
  {
    ShapeKept(st, Handle(0, true));
    var i := SlotWith(st.ids, target, 0);
    if i < |st.ids| && st.watch.busy[i].Some? { FreedSleepsOk(st, DoCancel(st, target)); }
  }

  lemma HandleSleepsOk(st: System, slot: nat)
    requires AwakeOk(st)
    ensures StaysOk(st, DoHandle(st, slot, true))
  {
    if st.pc.Handling? {
      match st.pc.request
      case Run(task, pin) => RunSleepsOk(st, task, pin, slot);
      case Cancel(_, target) => CancelSleepsOk(st, target);
      case NextResponse(_) => ShapeKept(st, Handle(slot, true));
    }
  }

  lemma WakeSleepsOk(st: System)
    requires AwakeOk(st)
    ensures StaysOk(st, DoWake(st))
  {
    ShapeKept(st, Wake);
    if st.pc.Posting? {
      RunCountConcat(st.q.tasks, [NextResponse(st.pc.id)]);
      RunCountOne(NextResponse(st.pc.id));
      AppendKeepsWake(st.q.tasks, NextResponse(st.pc.id));
    }
  }

  lemma ReleaseSleepsOk(st: System, i: nat)
    requires AwakeOk(st) && st.pc == Updating && Move(st.watch, Released(i)).Some?
    ensures StaysOk(st, DoTell(st, Released(i)))
  {
    ShapeKept(st, Tell(Released(i)));
    FreedSleepsOk(st, DoTell(st, Released(i)));
  }

  lemma TellSleepsOk(st: System, e: Event)
    requires AwakeOk(st)
    ensures StaysOk(st, DoTell(st, e))
  {
    if st.pc == Updating && Move(st.watch, e).Some? {
      if e.Released? { ReleaseSleepsOk(st, e.slot); } else { ShapeKept(st, Tell(e)); }
    }
  }

  lemma StepSleepsOk(st: System, s: Step)
    requires AwakeOk(st) && Launches(s)
    ensures AwakeOk(Next(st, s))
    ensures SleepOk(st) && PinExists(st, s) ==> SleepOk(Next(st, s))
  {
    hide DoPost, DoPostCancel, DoPop, DoHandle, DoWake, DoTell;
    match s
    case Post(task, pin) => PostSleepsOk(st, task, pin);
    case PostCancel(id) => PostCancelSleepsOk(st, id);
    case Pop => PopSleepsOk(st);
    case Handle(slot, _) => HandleSleepsOk(st, slot);
    case Wake => WakeSleepsOk(st);
    case Tell(e) => TellSleepsOk(st, e);
    case _ => ShapeKept(st, s);
  }

  // ------------------------------------------------------------------ runs

  /** Every task that the run posts is free or pinned to a slot that exists. */
  predicate PinsExist(st: System, steps: seq<Step>)
    requires |st.ids| == |st.watch.busy|
    decreases |steps|
  {
    steps == [] || (PinsExist(st, steps[..|steps| - 1])
      && PinExists(After(st, steps[..|steps| - 1]), steps[|steps| - 1]))
  }

  lemma {:induction false} MissingPin(st: System, steps: seq<Step>) returns (j: nat)
    requires |st.ids| == |st.watch.busy| && !PinsExist(st, steps)
    ensures j < |steps| && !PinExists(After(st, steps[..j]), steps[j])
    decreases |steps|
  {
    var front := steps[..|steps| - 1];
    j := |front|;
    if !PinsExist(st, front) {
      j := MissingPin(st, front);
      assert front[..j] == steps[..j];
    }
  }

  lemma {:induction false} RunSleepsWell(st: System, steps: seq<Step>)
    requires AwakeOk(st) && forall j :: 0 <= j < |steps| ==> Launches(steps[j])
    ensures AwakeOk(After(st, steps))
    ensures SleepOk(st) && PinsExist(st, steps) ==> SleepOk(After(st, steps))
    decreases |steps|
  {
    if steps != [] {
      RunSleepsWell(st, steps[..|steps| - 1]);
      StepSleepsOk(After(st, steps[..|steps| - 1]), steps[|steps| - 1]);
    }
  }

  // ------------------------------------------------------------------ a task nobody can take

  predicate Waits(st: System, r: Request) { r in st.q.tasks || r in st.q.deferred || st.pc == Handling(r) }

  lemma {:induction false} SparedKeepsRun(rs: seq<Request>, target: int, r: Request)
    requires target != -1 && r.Run? && r in rs
    ensures r in Spared(rs, target)
  {
    if rs[|rs| - 1] != r { SparedKeepsRun(rs[..|rs| - 1], target, r); }
  }

  /** A task that is pinned to a slot that does not exist is not launched, whatever happens. */
  lemma StepKeepsWaiting(st: System, s: Step, r: Request)
    requires Shape(st) && Waits(st, r) && !Housed(r, |st.ids|)
    ensures Waits(Next(st, s), r)
  {
    hide DoHandle, DoTell, DoPostCancel;
    match s
    case PostCancel(id) => CancelKeepsWaiting(st, id, r);
    case Pop => if st.q.tasks != [] { assert st.q.tasks == [st.q.tasks[0]] + st.q.tasks[1..]; }
    case Handle(slot, ok) => HandleKeepsWaiting(st, slot, ok, r);
    case Tell(e) => TellKeepsWaiting(st, e, r);
    case _ =>
  }

  lemma CancelKeepsWaiting(st: System, id: int, r: Request)
    requires Shape(st) && Waits(st, r) && r.Run?
    ensures Waits(DoPostCancel(st, id), r)
  {
    PostCancelIs(st, id);
    if id in st.stage && r in st.q.tasks { SparedKeepsRun(st.q.tasks, id, r); }
    if id in st.stage && r in st.q.deferred { SparedKeepsRun(st.q.deferred, id, r); }
  }

  lemma HandleKeepsWaiting(st: System, slot: nat, ok: bool, r: Request)
    requires Shape(st) && Waits(st, r) && !Housed(r, |st.ids|)
    ensures Waits(DoHandle(st, slot, ok), r)
  {
    UndeferredIsWaiting(st.q, r);
    hide Undeferred, SlotWith;
  }

  lemma TellKeepsWaiting(st: System, e: Event, r: Request)
    requires Waits(st, r)
    ensures Waits(DoTell(st, e), r)
  {
    UndeferredIsWaiting(st.q, r);
    hide Undeferred, Move;
  }

  lemma UndeferredIsWaiting(q: Queues, r: Request)
    ensures r in q.tasks || r in q.deferred ==> r in Undeferred(q).tasks || r in Undeferred(q).deferred
  {
    if q.deferred != [] { assert q.deferred == [q.deferred[0]] + q.deferred[1..]; }
  }

  lemma {:induction false} RunKeepsWaiting(st: System, steps: seq<Step>, r: Request)
    requires Shape(st) && Waits(st, r) && !Housed(r, |st.ids|)
    ensures Shape(After(st, steps)) && Waits(After(st, steps), r)
    decreases |steps|
  {
    if steps != [] {
      var front := steps[..|steps| - 1];
      RunKeepsWaiting(st, front, r);
      ShapeKept(After(st, front), steps[|steps| - 1]);
      StepKeepsWaiting(After(st, front), steps[|steps| - 1], r);
    }
  }

  /** In every run, also one with failing launches: a task that was posted for a slot that does not exist stays in
      the queue, deferred, or in the hands of the loop thread, and never gets to a slot or to an end. */
  lemma PinnedTaskIsStranded(n: nat, steps: seq<Step>, j: nat)
    requires j < |steps| && Posts(After(Init(n), steps[..j]), steps[j]) && !(-1 <= steps[j].pin < n)
    ensures var st, task := After(Init(n), steps), steps[j].task;
            && Waits(st, Run(task, steps[j].pin))
            && OnSlots(st.watch.busy, task.id) == 0 && task.id !in st.done
  {
    var before, r := After(Init(n), steps[..j]), Run(steps[j].task, steps[j].pin);
    RunKeepsIdsBelow(n, steps[..j]);
    RunIsSplit(Init(n), steps, j);
    hide Next, After;
    PostedWaits(before, steps[j]);
    RunKeepsWaiting(Next(before, steps[j]), steps[j + 1..], r);
    WaitingIsNowhereElse(n, steps, r);
  }

  lemma PostedWaits(st: System, s: Step)
    requires Shape(st) && Posts(st, s)
    ensures Shape(Next(st, s)) && Waits(Next(st, s), Run(s.task, s.pin)) && |Next(st, s).ids| == |st.ids|
  {
    ShapeKept(st, s);
    var tasks := Next(st, s).q.tasks;
    assert tasks[|tasks| - 1] == Run(s.task, s.pin);
  }

  lemma RunIsSplit(st: System, steps: seq<Step>, j: nat)
    requires |st.ids| == |st.watch.busy| && j < |steps|
    ensures After(st, steps) == After(Next(After(st, steps[..j]), steps[j]), steps[j + 1..])
  {
    hide Next;
    AfterConcat(st, steps[..j + 1], steps[j + 1..]);
    assert steps[..j + 1] + steps[j + 1..] == steps && steps[..j + 1][..j] == steps[..j];
  }

  lemma WaitingIsNowhereElse(n: nat, steps: seq<Step>, r: Request)
    requires r.Run? && Waits(After(Init(n), steps), r)
    ensures var st := After(Init(n), steps); OnSlots(st.watch.busy, r.task.id) == 0 && r.task.id !in st.done
  {
    var st := After(Init(n), steps);
    TasksAreConserved(n, steps, r.task.id);
    if r in st.q.tasks { RunsOfMember(st.q.tasks, r); }
    if r in st.q.deferred { RunsOfMember(st.q.deferred, r); }
  }

  lemma {:induction false} RunsOfMember(rs: seq<Request>, r: Request)
    requires r.Run? && r in rs
    ensures Runs(rs, r.task.id) >= 1
  {
    if rs[|rs| - 1] != r { RunsOfMember(rs[..|rs| - 1], r); }
  }

  // ------------------------------------------------------------------ when the thread sleeps

  lemma StartSleepsOk(n: nat)
    requires n > 0
    ensures SleepOk(Init(n))
  {
  }

  lemma AsleepIsIdle(st: System)
    requires AwakeOk(st) && Asleep(st)
    ensures !AnyBusy(st.watch.busy) && (SleepOk(st) ==> st.q.deferred == [])
  {
    assert !HasWake([]) && RunCount([]) == 0;
  }

  /** In every interleaving of posts, receives, cancels, defers, releases and updates in which launches succeed,
      the loop thread sleeps only with every slot idle; and then nothing is deferred exactly if every task that was
      posted is free or pinned to a slot that exists. */
  lemma SleepsOnlyWithoutWork(n: nat, steps: seq<Step>)
    requires n > 0 && (forall j :: 0 <= j < |steps| ==> Launches(steps[j])) && Asleep(After(Init(n), steps))
    ensures var st := After(Init(n), steps);
            && (forall i :: 0 <= i < n ==> st.watch.busy[i].None?)
            && (st.q.deferred == [] <==> PinsExist(Init(n), steps))
  {
    hide Init, After, PinsExist;
    StartSleepsOk(n);
    RunSleepsWell(Init(n), steps);
    AsleepIsIdle(After(Init(n), steps));
    if !PinsExist(Init(n), steps) { MissingPinStrands(n, steps); }
  }

  lemma MissingPinStrands(n: nat, steps: seq<Step>)
    requires !PinsExist(Init(n), steps) && Asleep(After(Init(n), steps))
    ensures After(Init(n), steps).q.deferred != []
  {
    hide After;
    var j := MissingPin(Init(n), steps);
    PinnedTaskIsStranded(n, steps, j);
  }

  // ------------------------------------------------------------------ a launch that fails

  /** The thread handles what is in the queue, finds nothing busy and goes to sleep. */
  function DrySteps(rs: seq<Request>): seq<Step> {
    if rs == [] then [Begin, Begin] else [Pop, Handle(0, true)] + DrySteps(rs[1..])
  }

  predicate Harmless(steps: seq<Step>) { forall j :: 0 <= j < |steps| ==> Launches(steps[j]) && !steps[j].Post? }

  lemma {:induction false} DryStepsAreHarmless(rs: seq<Request>)
    ensures Harmless(DrySteps(rs))
    decreases |rs|
  {
    if rs != [] { DryStepsAreHarmless(rs[1..]); }
  }

  lemma {:induction false} HarmlessPins(st: System, steps: seq<Step>)
    requires |st.ids| == |st.watch.busy| && Harmless(steps)
    ensures PinsExist(st, steps)
    decreases |steps|
  {
    if steps != [] { HarmlessPins(st, steps[..|steps| - 1]); }
  }

  lemma AfterTwo(st: System, a: Step, b: Step)
    requires |st.ids| == |st.watch.busy|
    ensures After(st, [a, b]) == Next(Next(st, a), b)
  {
    hide Next;
    RunsOn(st, [], a);
    assert [] + [a] == [a] && [a] + [b] == [a, b];
    RunsOn(st, [a], b);
  }

  lemma IdleTurn(st: System)
    requires Shape(st) && st.pc == Picking && !AnyBusy(st.watch.busy) && st.q.tasks != [] && !st.q.tasks[0].Run?
    ensures After(st, [Pop, Handle(0, true)]) == st.(q := st.q.(tasks := st.q.tasks[1..]))
  {
    AfterTwo(st, Pop, Handle(0, true));
    IdleHandle(DoPop(st), st.q.tasks[0]);
    hide After, DoHandle, Shape, AnyBusy;
    assert Next(st, Pop) == DoPop(st);
  }

  lemma IdleHandle(st: System, r: Request)
    requires |st.ids| == |st.watch.busy| && st.pc == Handling(r) && !AnyBusy(st.watch.busy) && !r.Run?
    ensures Next(st, Handle(0, true)) == st.(pc := Picking)
  {
    if r.Cancel? {
      var i := SlotWith(st.ids, r.target, 0);
      hide SlotWith;
      assert i < |st.ids| ==> st.watch.busy[i].None?;
    }
  }

  /** With no inference task left in the queue and every slot idle, the thread can go to sleep. */
  lemma {:induction false} RunsDry(st: System)
    requires Shape(st) && st.pc == Picking && !AnyBusy(st.watch.busy) && RunCount(st.q.tasks) == 0
    ensures var end := After(st, DrySteps(st.q.tasks)); Asleep(end) && end.q.deferred == st.q.deferred
    decreases |st.q.tasks|
  {
    if st.q.tasks == [] {
      AfterTwo(st, Begin, Begin);
    } else {
      RunCountFirst(st.q.tasks);
      IdleTurn(st);
      var v := st.(q := st.q.(tasks := st.q.tasks[1..]));
      RunsDry(v);
      AfterConcat(st, [Pop, Handle(0, true)], DrySteps(v.q.tasks));
    }
  }

  /** A continuation in which everything else goes well, and that ends asleep with a deferred task. */
  predicate Strands(st: System, more: seq<Step>)
    requires |st.ids| == |st.watch.busy|
  {
    && (forall j :: 0 <= j < |more| ==> Launches(more[j])) && PinsExist(st, more)
    && Asleep(After(st, more)) && After(st, more).q.deferred != []
  }

  lemma FailureLeaves(st: System, task: Task, pin: int, slot: nat)
    requires SleepOk(st) && st.pc == Handling(Run(task, pin)) && CanTake(st, pin, slot)
    ensures var r := DoHandle(st, slot, false);
            && AwakeOk(r) && Free(r) && r.pc == Picking && r.q == st.q && r.watch == st.watch && |r.ids| == |st.ids|
            && (Room(r) <==> st.q.deferred == [] || AnyBusy(st.watch.busy) || RunCount(st.q.tasks) > 0)
  {
    ShapeKept(st, Handle(slot, false));
  }

  /** A launch that fails returns without taking a deferred task back into the queue. In every reachable state in
      which the only launch that fails is the next one, this can leave a deferred task behind a sleeping thread, with
      nothing else going wrong, exactly if a task is deferred, no slot is busy, and no inference task is queued. */
  lemma FailedLaunchStrandsExactly(n: nat, steps: seq<Step>, task: Task, pin: int, slot: nat)
    requires n > 0 && (forall j :: 0 <= j < |steps| ==> Launches(steps[j])) && PinsExist(Init(n), steps)
    requires var st := After(Init(n), steps); st.pc == Handling(Run(task, pin)) && CanTake(st, pin, slot)
    ensures var st := After(Init(n), steps);
            (exists more :: Strands(DoHandle(st, slot, false), more))
            <==> st.q.deferred != [] && !AnyBusy(st.watch.busy) && RunCount(st.q.tasks) == 0
  {
    var st := After(Init(n), steps);
    hide Init, After, PinsExist;
    StartSleepsOk(n);
    RunSleepsWell(Init(n), steps);
    var r := DoHandle(st, slot, false);
    FailureLeaves(st, task, pin, slot);
    RoomDecides(r);
  }

  lemma RoomDecides(r: System)
    requires AwakeOk(r) && Free(r) && r.pc == Picking
    ensures (exists more :: Strands(r, more)) <==> !Room(r)
  {
    if Room(r) {
      forall more ensures !Strands(r, more) { RoomProtects(r, more); }
    } else {
      var more := DrySteps(r.q.tasks);
      RunsDry(r);
      DryStepsAreHarmless(r.q.tasks);
      HarmlessPins(r, more);
      assert Strands(r, more);
    }
  }

  lemma RoomProtects(r: System, more: seq<Step>)
    requires SleepOk(r)
    ensures !Strands(r, more)
  {
    if forall j :: 0 <= j < |more| ==> Launches(more[j]) {
      RunSleepsWell(r, more);
      if Asleep(After(r, more)) { AsleepIsIdle(After(r, more)); }
    }
  }

  // ------------------------------------------------------------------ and can happen

  lemma Go(start: System, steps: seq<Step>, st: System, s: Step) returns (more: seq<Step>, next: System)
    requires |start.ids| == |start.watch.busy| && st == After(start, steps)
    ensures next == After(start, more) == Next(st, s)
  {
    RunsOn(start, steps, s);
    more, next := steps + [s], Next(st, s);
  }

  lemma ClientPosts(start: System, steps: seq<Step>, st: System, task: Task, pin: int) returns (more: seq<Step>,
        next: System)
    requires |start.ids| == |start.watch.busy| && st == After(start, steps) && task.id == st.q.nextId
    ensures next == After(start, more) && next.watch == st.watch && next.ids == st.ids && next.pc == st.pc
    ensures next.q == Queues(task.id + 1, st.q.tasks + [Run(task, pin)], st.q.deferred)
  {
    hide After;
    more, next := Go(start, steps, st, NewId);
    more, next := Go(start, more, next, Register(task.id));
    more, next := Go(start, more, next, Post(task, pin));
  }

  /** The thread takes an inference task: it launches it, fails to, or defers it. */
  lemma ThreadTakes(start: System, steps: seq<Step>, st: System, ok: bool) returns (more: seq<Step>, next: System)
    requires |start.ids| == |start.watch.busy| == 1 && st == After(start, steps)
    requires st.pc == Picking && st.q.tasks != [] && !st.q.tasks[0].Cancel?
             && (st.q.tasks[0].Run? ==> st.q.tasks[0].pin == -1)
    ensures next == After(start, more) && |next.ids| == 1 && next.pc == Picking && next.watch.due == st.watch.due
    ensures next.q.tasks == st.q.tasks[1..] && (st.q.tasks[0].NextResponse? ==> next.q.deferred == st.q.deferred)
    ensures var r := st.q.tasks[0];
            if r.NextResponse? || st.watch.busy[0].Some? || !ok then next.watch == st.watch
            else next.watch.busy == [Some(r.task.id)] && next.ids == [r.task.id]
    ensures var r := st.q.tasks[0];
            next.q.deferred == st.q.deferred + if r.Run? && st.watch.busy[0].Some? then [r] else []
    ensures st.q.tasks[0].NextResponse? || st.watch.busy[0].Some? ==> next.ids == st.ids
  {
    hide After;
    more, next := Go(start, steps, st, Pop);
    if st.watch.busy[0].Some? { assert !AnyIdle(next.watch.busy); }
    more, next := Go(start, more, next, Handle(0, ok));
  }

  lemma CallBegins(start: System, steps: seq<Step>, st: System) returns (more: seq<Step>, next: System)
    requires |start.ids| == |start.watch.busy| == 1 && st == After(start, steps)
    requires st.pc == Picking && st.watch.busy[0].Some? && st.q.tasks == []
    ensures next == After(start, more) && next.ids == st.ids && next.pc == Updating && next.watch == st.watch
    ensures next.q.tasks == [NextResponse(st.q.nextId)] && next.q.deferred == st.q.deferred
  {
    hide After;
    more, next := Go(start, steps, st, Begin);
    more, next := Go(start, more, next, Begin);
    more, next := Go(start, more, next, Wake);
  }

  /** The task of the one slot is answered within a call of `update_slots`, which takes a deferred task back. */
  lemma CallAnswers(start: System, steps: seq<Step>, st: System, r: Request, d: Request) returns (more: seq<Step>,
        next: System)
    requires |start.ids| == |start.watch.busy| == 1 && st == After(start, steps)
    requires st.pc == Picking && st.watch.busy[0].Some? && st.watch.due.Nothing?
    requires st.q.tasks == [] && st.q.deferred == [r, d]
    ensures next == After(start, more) && |next.ids| == 1 && next.pc == Resting && next.watch == Watch([None], Nothing)
    ensures next.q.tasks == [NextResponse(st.q.nextId), r] && next.q.deferred == [d]
  {
    hide After;
    var task := st.watch.busy[0].value;
    more, next := CallBegins(start, steps, st);
    more, next := Go(start, more, next, Tell(Released(0)));
    more, next := Go(start, more, next, Tell(Sent(task, Final([], TextStream.Limit, 1))));
    more, next := Go(start, more, next, Finish);
  }

  lemma ThreePosted(a: Task, b: Task, c: Task) returns (steps: seq<Step>, st: System)
    requires a.id == 0 && b.id == 1 && c.id == 2
    ensures st == After(Init(1), steps) && |st.ids| == 1 && st.pc == Resting && st.watch == Watch([None], Nothing)
    ensures st.q == Queues(3, [Run(a, -1), Run(b, -1), Run(c, -1)], [])
  {
    var start := Init(1);
    steps, st := [], start;
    hide After, Init;
    steps, st := ClientPosts(start, steps, st, a, -1);
    steps, st := ClientPosts(start, steps, st, b, -1);
    steps, st := ClientPosts(start, steps, st, c, -1);
  }

  lemma FirstRuns(start: System, steps: seq<Step>, st: System, a: Task, b: Task, c: Task) returns (more: seq<Step>,
        next: System)
    requires |start.ids| == |start.watch.busy| == 1 && st == After(start, steps)
    requires st.pc == Resting && st.watch == Watch([None], Nothing)
    requires st.q.tasks == [Run(a, -1), Run(b, -1), Run(c, -1)] && st.q.deferred == []
    ensures next == After(start, more) && |next.ids| == 1 && next.pc == Picking
            && next.watch == Watch([Some(a.id)], Nothing)
    ensures next.q.tasks == [] && next.q.deferred == [Run(b, -1), Run(c, -1)]
  {
    hide After;
    more, next := Go(start, steps, st, Rest);
    more, next := ThreadTakes(start, more, next, true);
    more, next := ThreadTakes(start, more, next, true);
    more, next := ThreadTakes(start, more, next, true);
  }

  lemma SecondFails(start: System, steps: seq<Step>, st: System, id: int, b: Task, d: Request) returns (more: seq<Step>,
        next: System)
    requires |start.ids| == |start.watch.busy| == 1 && st == After(start, steps)
    requires st.pc == Resting && st.watch == Watch([None], Nothing)
    requires st.q.tasks == [NextResponse(id), Run(b, -1)] && st.q.deferred == [d]
    ensures next == After(start, more) && Asleep(next) && !AnyBusy(next.watch.busy) && next.q.deferred == [d]
  {
    hide After;
    more, next := Go(start, steps, st, Rest);
    more, next := ThreadTakes(start, more, next, true);
    more, next := ThreadTakes(start, more, next, false);
    more, next := Go(start, more, next, Begin);
    more, next := Go(start, more, next, Begin);
  }

  /** One slot and three tasks: the first is answered, the launch of the second fails, and the third is left behind
      the sleeping thread. */
  lemma FailedLaunchStrands(a: Task, b: Task, c: Task) returns (steps: seq<Step>)
    requires a.id == 0 && b.id == 1 && c.id == 2
    ensures var st := After(Init(1), steps);
            Asleep(st) && !AnyBusy(st.watch.busy) && st.q.deferred == [Run(c, -1)]
  {
    var start, st := Init(1), Init(1);
    steps, st := ThreePosted(a, b, c);
    hide After, Init;
    steps, st := FirstRuns(start, steps, st, a, b, c);
    var id := st.q.nextId;
    steps, st := CallAnswers(start, steps, st, Run(b, -1), Run(c, -1));
    steps, st := SecondFails(start, steps, st, id, b, Run(c, -1));
  }
}
