/** The loop thread of the concrete server, until it sleeps, is a run of the protocol; and so every task that was posted
    is settled when it sleeps: answered once, or cancelled. */
module Settlement {
  import opened Wrappers
  import opened Slots
  import opened UpdateSlots
  import opened TaskQueue
  import opened ResultQueue
  import opened Traces
  import opened ContextSteps
  import opened Protocol
  import opened ProtocolSafety
  import opened ProtocolSleep
  import opened Drain
  import opened Refinement
  import opened SlotIds
  import opened ServerRuns

  /** The protocol shows the slots and the queues of the thread's machine, between two steps of the thread. */
  predicate Mirrored(st: System, m: Machine) {
    |st.ids| == |st.watch.busy| && st.pc == Picking && Shows(st, m.server.slots, m.q, st.box)
  }

  /** The slot that takes the request. */
  function TakenBy(m: Machine, c: Choice): nat
    requires m.q.tasks != []
  {
    match m.q.tasks[0]
    case Run(_, pin) => var i := SlotFor(m.server.slots, pin, c.slot); if i == |m.server.slots| then 0 else i
    case _ => 0
  }

  /** The steps of the protocol that one step of the thread consists of. */
  function StepsOf(cfg: Config, m: Machine, c: Choice): seq<Step>
    requires Valid(m.server)
  {
    if m.q.tasks != [] then [Pop, Handle(TakenBy(m, c), true)]
    else [Begin] + (CallSteps(Update(cfg, m.server, c.o).events) + [Rest])
  }

  /** The protocol's state after steps of the thread: it shows the machine, and clients are where they were. */
  ghost predicate LeadsTo(st: System, steps: seq<Step>, m: Machine)
    requires |st.ids| == |st.watch.busy|
  {
    Mirrored(After(st, steps), m) && After(st, steps).stage == st.stage
  }

  // ------------------------------------------------------------------ requests

  lemma TaskIsTaken(cfg: Config, m: Machine, c: Choice, st: System, v: System)
    requires Mirrored(st, m) && m.q.tasks != [] && m.q.tasks[0].Run? && Valid(m.server) && v == DoPop(st)
    ensures var r := DoHandle(v, TakenBy(m, c), true); Mirrored(r, TakeOne(cfg, m, c)) && r.stage == st.stage
  {
    var r, slots := m.q.tasks[0], m.server.slots;
    var i := SlotFor(slots, r.pin, c.slot);
    assert v.pc == Handling(Request.Run(r.task, r.pin)) && Shows(v, slots, v.q, v.box);
    assert if i == |slots| then MustDefer(v, r.pin) else CanTake(v, r.pin, i);
    RunIsThreadStep(cfg, m, c, st.box);
    hide TakeOne, Launch;
    RunIsProtocolStep(cfg, slots, v, r.task, r.pin, if i < |slots| then Some(i) else None, true);
  }

  lemma CancelIsTaken(cfg: Config, m: Machine, c: Choice, st: System, v: System)
    requires Mirrored(st, m) && m.q.tasks != [] && m.q.tasks[0].Cancel? && Valid(m.server) && v == DoPop(st)
    ensures var r := DoHandle(v, 0, true); Mirrored(r, TakeOne(cfg, m, c)) && r.stage == st.stage
  {
    var r, slots := m.q.tasks[0], m.server.slots;
    CancelIsProtocolStep(slots, v, r.id, r.target);
    var i := SlotOf(slots, r.target, 0);
    if i < |slots| && !Processing(slots[i]) { assert slots[i := Release(slots[i])] == slots; }
  }

  lemma RequestIsTaken(cfg: Config, m: Machine, c: Choice, st: System)
    requires Mirrored(st, m) && m.q.tasks != [] && Valid(m.server)
    ensures LeadsTo(st, [Pop, Handle(TakenBy(m, c), true)], TakeOne(cfg, m, c))
  {
    AfterTwo(st, Pop, Handle(TakenBy(m, c), true));
    var v := DoPop(st);
    hide After;
    match m.q.tasks[0]
    case Run(_, _) => TaskIsTaken(cfg, m, c, st, v);
    case Cancel(_, _) => CancelIsTaken(cfg, m, c, st, v);
    case NextResponse(_) =>
  }

  // ------------------------------------------------------------------ calls

  lemma {:induction false} ReleasesUndefer(q: Queues, box: Box, events: seq<Event>)
    ensures QueuesAfter((q, box), events).0 == UndeferredTimes(q, Releases(events))
    decreases |events|
  {
    if events != [] { ReleasesUndefer(q, box, events[..|events| - 1]); }
  }

  lemma {:induction false} UndeferredAreQueued(q: Queues, n: nat)
    ensures q.tasks <= UndeferredTimes(q, n).tasks
  {
    if n > 0 { UndeferredAreQueued(q, n - 1); }
  }

  lemma ThreadKeepsStage(st: System, s: Step)
    requires |st.ids| == |st.watch.busy| && (s.Begin? || s.Wake? || s.Tell? || s.Finish?)
    ensures Next(st, s).stage == st.stage && Next(st, s).ids == st.ids
  {
  }

  lemma {:induction false} ThreadKeepsStages(st: System, steps: seq<Step>)
    requires |st.ids| == |st.watch.busy|
    requires forall j :: 0 <= j < |steps| ==> steps[j].Begin? || steps[j].Wake? || steps[j].Tell? || steps[j].Finish?
    ensures After(st, steps).stage == st.stage && After(st, steps).ids == st.ids
    decreases |steps|
  {
    if steps != [] {
      ThreadKeepsStages(st, steps[..|steps| - 1]);
      ThreadKeepsStage(After(st, steps[..|steps| - 1]), steps[|steps| - 1]);
      hide Next;
    }
  }

  lemma WakeIsFirst(q: Queues, box: Box, events: seq<Event>)
    requires q.tasks == []
    ensures QueuesAfter((WakePosted(q), box), events).0.tasks != []
  {
    ReleasesUndefer(WakePosted(q), box, events);
    UndeferredAreQueued(WakePosted(q), Releases(events));
  }

  lemma RestIsOver(b: System, server: Server, q: Queues)
    requires |b.ids| == |b.watch.busy| && b.pc == Resting && q.tasks != []
    requires b.ids == Ids(server.slots) && b.watch == Steady(server.slots) && b.q == q
    ensures Mirrored(DoRest(b), Machine(server, q)) && DoRest(b).stage == b.stage
  {
  }

  lemma CallIsRun(cfg: Config, m: Machine, o: Oracle, a: System)
    requires Valid(m.server) && m.q.tasks == [] && !AllIdle(m.server.slots) && !Update(cfg, m.server, o).fatal
    requires |a.ids| == |a.watch.busy| && a.pc == Starting && Shows(a, m.server.slots, m.q, a.box)
    ensures var r := Update(cfg, m.server, o);
            var b, q := After(a, CallSteps(r.events)), UndeferredTimes(WakePosted(m.q), Releases(r.events));
            && b.pc == Resting && b.ids == Ids(r.server.slots) && b.watch == Steady(r.server.slots)
            && b.q == q && q.tasks != [] && b.stage == a.stage
  {
    var events := Update(cfg, m.server, o).events;
    UpdateKeepsIds(cfg, m.server, o);
    hide Update, CallSteps, After, QueuesAfter, UndeferredTimes;
    CallIsProtocolRun(cfg, m.server, o, a);
    CallKeepsStages(a, events);
    ReleasesUndefer(WakePosted(m.q), a.box, events);
    WakeIsFirst(m.q, a.box, events);
  }

  lemma CallOnceIs(cfg: Config, m: Machine, c: Choice)
    requires Valid(m.server) && m.q.tasks == []
    ensures var r := Update(cfg, m.server, c.o);
            && CallOnce(cfg, m, c) == Machine(r.server, UndeferredTimes(WakePosted(m.q), Releases(r.events)))
            && StepsOf(cfg, m, c) == [Begin] + (CallSteps(r.events) + [Rest])
  {
  }

  lemma BeginOrRest(st: System)
    requires |st.ids| == |st.watch.busy|
    ensures st.pc == Picking && st.q.tasks == [] ==> Next(st, Begin) == st.(pc := Starting)
    ensures Next(st, Rest) == DoRest(st)
  {
  }

  lemma CallSpans(st: System, steps: seq<Step>)
    requires |st.ids| == |st.watch.busy| && st.pc == Picking && st.q.tasks == []
    ensures After(st, [Begin] + (steps + [Rest])) == DoRest(After(st.(pc := Starting), steps))
  {
    var a := st.(pc := Starting);
    hide *;
    BeginOrRest(st);
    BeginOrRest(After(a, steps));
    FirstStep(st, Begin, steps + [Rest]);
    RunsOn(a, steps, Rest);
  }

  /** A call that does not fail for good is taken event by event. */
  lemma CallIsTaken(cfg: Config, m: Machine, c: Choice, st: System)
    requires Mirrored(st, m) && m.q.tasks == [] && !AllIdle(m.server.slots) && Valid(m.server)
    requires !Update(cfg, m.server, c.o).fatal
    ensures LeadsTo(st, StepsOf(cfg, m, c), CallOnce(cfg, m, c))
  {
    var r, a := Update(cfg, m.server, c.o), st.(pc := Starting);
    var b, q := After(a, CallSteps(r.events)), UndeferredTimes(WakePosted(m.q), Releases(r.events));
    assert Shows(a, m.server.slots, m.q, a.box);
    hide *;
    CallOnceIs(cfg, m, c);
    CallIsRun(cfg, m, c.o, a);
    CallSpans(st, CallSteps(r.events));
    RestIsOver(b, r.server, q);
    LeadsToIs(st, StepsOf(cfg, m, c), CallOnce(cfg, m, c));
  }

  lemma LeadsToIs(st: System, steps: seq<Step>, m: Machine)
    requires |st.ids| == |st.watch.busy| && Mirrored(After(st, steps), m) && After(st, steps).stage == st.stage
    ensures LeadsTo(st, steps, m)
  {
  }

  lemma FirstStep(st: System, s: Step, more: seq<Step>)
    requires |st.ids| == |st.watch.busy|
    ensures After(st, [s] + more) == After(Next(st, s), more)
  {
    AfterConcat(st, [s], more);
    RunsOn(st, [], s);
    assert [] + [s] == [s];
  }

  lemma CallKeepsStages(st: System, events: seq<Event>)
    requires |st.ids| == |st.watch.busy|
    ensures After(st, CallSteps(events)).stage == st.stage && After(st, CallSteps(events)).ids == st.ids
  {
    ThreadKeepsStages(st, CallSteps(events));
  }

  // ------------------------------------------------------------------ until the thread sleeps

  lemma StepIsTaken(cfg: Config, m: Machine, c: Choice, st: System)
    requires Mirrored(st, m) && !Sleeps(m) && Valid(m.server)
    requires m.q.tasks == [] ==> !Update(cfg, m.server, c.o).fatal
    ensures LeadsTo(st, StepsOf(cfg, m, c), ThreadStep(cfg, m, c))
  {
    hide LeadsTo, TakeOne, CallOnce, Update, Mirrored;
    if m.q.tasks != [] { RequestIsTaken(cfg, m, c, st); } else { CallIsTaken(cfg, m, c, st); }
  }

  /** The steps of the protocol that `n` steps of the thread consist of. */
  ghost function ThreadSteps(cfg: Config, m: Machine, choices: nat -> Choice, from: nat, n: nat): seq<Step>
    requires Valid(m.server)
    decreases n
  {
    if n == 0 || Sleeps(m) then [] else
    StepsOf(cfg, m, choices(from)) + ThreadSteps(cfg, ThreadStep(cfg, m, choices(from)), choices, from + 1, n - 1)
  }

  /** In none of the first `n` steps of the thread does decoding fail for good. */
  ghost predicate NoFatalCall(cfg: Config, m: Machine, choices: nat -> Choice, from: nat, n: nat)
    requires Valid(m.server)
    decreases n
  {
    n == 0 || Sleeps(m)
    || ((m.q.tasks == [] ==> !Update(cfg, m.server, choices(from).o).fatal)
        && NoFatalCall(cfg, ThreadStep(cfg, m, choices(from)), choices, from + 1, n - 1))
  }

  lemma ThreadUnfold(cfg: Config, m: Machine, choices: nat -> Choice, from: nat, n: nat) returns (next: Machine)
    requires Valid(m.server) && NoFatalCall(cfg, m, choices, from, n) && n > 0 && !Sleeps(m)
    ensures next == ThreadStep(cfg, m, choices(from)) && Valid(next.server)
    ensures m.q.tasks == [] ==> !Update(cfg, m.server, choices(from).o).fatal
    ensures NoFatalCall(cfg, next, choices, from + 1, n - 1)
    ensures ThreadSteps(cfg, m, choices, from, n)
            == StepsOf(cfg, m, choices(from)) + ThreadSteps(cfg, next, choices, from + 1, n - 1)
    ensures RunThread(cfg, m, choices, from, n) == RunThread(cfg, next, choices, from + 1, n - 1)
  {
    next := ThreadStep(cfg, m, choices(from));
    hide Update, StepsOf;
  }

  lemma {:induction false} ThreadIsProtocolRun(cfg: Config, m: Machine, choices: nat -> Choice, from: nat, n: nat,
        st: System)
    requires Mirrored(st, m) && Valid(m.server) && NoFatalCall(cfg, m, choices, from, n)
    ensures LeadsTo(st, ThreadSteps(cfg, m, choices, from, n), RunThread(cfg, m, choices, from, n))
    decreases n
  {
    if n > 0 && !Sleeps(m) {
      hide ThreadStep, StepsOf, Mirrored, After, LeadsTo, Update, ThreadSteps, RunThread, NoFatalCall, Sleeps;
      var steps := StepsOf(cfg, m, choices(from));
      var next := ThreadUnfold(cfg, m, choices, from, n);
      StepIsTaken(cfg, m, choices(from), st);
      LeadsToMeans(st, steps, next);
      ThreadIsProtocolRun(cfg, next, choices, from + 1, n - 1, After(st, steps));
      LeadsOn(st, steps, ThreadSteps(cfg, next, choices, from + 1, n - 1),
        RunThread(cfg, next, choices, from + 1, n - 1));
    }
  }

  lemma LeadsToMeans(st: System, steps: seq<Step>, m: Machine)
    requires |st.ids| == |st.watch.busy| && LeadsTo(st, steps, m)
    ensures Mirrored(After(st, steps), m) && After(st, steps).stage == st.stage
  {
  }

  lemma LeadsOn(st: System, steps: seq<Step>, more: seq<Step>, m: Machine)
    requires |st.ids| == |st.watch.busy| && After(st, steps).stage == st.stage && LeadsTo(After(st, steps), more, m)
    ensures LeadsTo(st, steps + more, m)
  {
    AfterConcat(st, steps, more);
    hide After;
  }

  /** The task has its one final result, or a cancel took it off its slot and it has none. */
  ghost predicate TaskSettled(st: System, id: int) {
    id in st.done && Ends(Of(st.told, id)) == if st.done[id] == Cancelled then 0 else 1
  }

  lemma SleepSettles(n: nat, steps: seq<Step>, m: Machine, id: int)
    requires var st := After(Init(n), steps); Mirrored(st, m) && WasPosted(st, id)
    requires Sleeps(m) && m.q.deferred == []
    ensures TaskSettled(After(Init(n), steps), id)
  {
    TasksAreConserved(n, steps, id);
    TasksAreAnsweredOnce(n, steps, id);
    SlotsOfNone(After(Init(n), steps).watch.busy, id);
  }

  /** Every task is settled. From any reachable state of the protocol that shows a sound server, whatever clients have
      posted, cancelled or received by then: where pending tasks can be given to some slot, partial removals work and
      decoding does not fail for good, the loop thread sleeps after finitely many steps, and each task that was posted
      has then been told exactly one final result, or was taken off its slot by a cancel and told none. */
  lemma EveryTaskIsSettled(cfg: Config, n: nat, steps: seq<Step>, m: Machine, choices: nat -> Choice)
    requires Mirrored(After(Init(n), steps), m) && MachineOk(cfg, m) && AllPlaceable(m)
    requires forall j: nat, k: nat :: choices(j).o.removes(k)
    requires forall k: nat :: NoFatalCall(cfg, m, choices, 0, k)
    ensures exists k: nat ::
              var end := After(Init(n), steps + ThreadSteps(cfg, m, choices, 0, k));
              && Sleeps(RunThread(cfg, m, choices, 0, k)) && Mirrored(end, RunThread(cfg, m, choices, 0, k))
              && forall id :: WasPosted(After(Init(n), steps), id) ==> TaskSettled(end, id)
  {
    EverythingDrains(cfg, m, choices, 0);
    var k: nat :| Drains(cfg, m, choices, 0, k);
    var st, more, r := After(Init(n), steps), ThreadSteps(cfg, m, choices, 0, k), RunThread(cfg, m, choices, 0, k);
    ThreadIsProtocolRun(cfg, m, choices, 0, k, st);
    AfterConcat(Init(n), steps, more);
    var end := After(Init(n), steps + more);
    forall id | WasPosted(st, id) ensures TaskSettled(end, id) { SleepSettles(n, steps + more, r, id); }
  }

  // ------------------------------------------------------------------ from start-up

  predicate IsClient(s: Step) {
    s.NewId? || s.Register? || s.Post? || s.Receive? || s.Remove? || s.PostCancel?
  }

  lemma ClientKeepsThread(st: System, s: Step)
    requires |st.ids| == |st.watch.busy| && IsClient(s) && st.q.deferred == []
    ensures var r := Next(st, s);
            r.ids == st.ids && r.watch == st.watch && r.pc == st.pc && r.q.deferred == []
  {
    if s.PostCancel? { PostCancelIs(st, s.id); }
  }

  lemma {:induction false} ClientsKeepThread(n: nat, steps: seq<Step>)
    requires forall j :: 0 <= j < |steps| ==> IsClient(steps[j])
    ensures var st, start := After(Init(n), steps), Init(n);
            st.ids == start.ids && st.watch == start.watch && st.pc == Resting && st.q.deferred == []
    decreases |steps|
  {
    if steps != [] {
      ClientsKeepThread(n, steps[..|steps| - 1]);
      hide Next, Init;
      ClientKeepsThread(After(Init(n), steps[..|steps| - 1]), steps[|steps| - 1]);
    }
  }

  lemma FreshIsMirrored(n: nat, params: Params, st: System)
    requires st.ids == Init(n).ids && st.watch == Init(n).watch && st.pc == Picking
    ensures Mirrored(st, Machine(Fresh(n, params), st.q))
  {
    assert Ids(Fresh(n, params).slots) == Init(n).ids;
    assert Tasks(Fresh(n, params).slots) == Init(n).watch.busy;
  }

  lemma StartIsMirrored(n: nat, params: Params, steps: seq<Step>)
    requires forall j :: 0 <= j < |steps| ==> IsClient(steps[j])
    requires After(Init(n), steps).q.tasks != []
    ensures var st, was := After(Init(n), steps + [Rest]), After(Init(n), steps);
            && Mirrored(st, Machine(Fresh(n, params), st.q)) && st.q == was.q && st.stage == was.stage
            && st.q.deferred == []
  {
    hide After, Init, Mirrored, Fresh;
    ClientsKeepThread(n, steps);
    RunsOn(Init(n), steps, Rest);
    BeginOrRest(After(Init(n), steps));
    FreshIsMirrored(n, params, After(Init(n), steps + [Rest]));
  }

  lemma FreshIsPlaceable(cfg: Config, n: nat, params: Params, q: Queues)
    requires n > 0 && q.deferred == [] && AllHoused(q.tasks, n)
    ensures MachineOk(cfg, Machine(Fresh(n, params), q)) && AllPlaceable(Machine(Fresh(n, params), q))
  {
  }

  /** A server that was just started settles whatever its clients have posted. */
  lemma StartedServerSettles(cfg: Config, n: nat, params: Params, steps: seq<Step>, choices: nat -> Choice)
    requires n > 0 && forall j :: 0 <= j < |steps| ==> IsClient(steps[j])
    requires var q := After(Init(n), steps).q; q.tasks != [] && AllHoused(q.tasks, n)
    requires forall j: nat, k: nat :: choices(j).o.removes(k)
    requires forall k: nat :: NoFatalCall(cfg, Machine(Fresh(n, params), After(Init(n), steps).q), choices, 0, k)
    ensures var m := Machine(Fresh(n, params), After(Init(n), steps).q);
            exists k: nat ::
              var end := After(Init(n), steps + [Rest] + ThreadSteps(cfg, m, choices, 0, k));
              && Sleeps(RunThread(cfg, m, choices, 0, k))
              && forall id :: WasPosted(After(Init(n), steps), id) ==> TaskSettled(end, id)
  {
    var m := Machine(Fresh(n, params), After(Init(n), steps).q);
    hide *;
    StartIsMirrored(n, params, steps);
    FreshIsPlaceable(cfg, n, params, m.q);
    EveryTaskIsSettled(cfg, n, steps + [Rest], m, choices);
    SamePosted(After(Init(n), steps), After(Init(n), steps + [Rest]));
  }

  lemma SamePosted(a: System, b: System)
    requires a.stage == b.stage
    ensures forall id :: WasPosted(a, id) <==> WasPosted(b, id)
  {
  }
}
