/** The loop thread on its own, once clients have posted what they post: it handles requests and calls
    `update_slots` until it sleeps. It always comes to sleep, and then nothing is left to do but tasks pinned to
    slots that do not exist. Tasks can be launched and partial removals of cells work; samplers, drafts, failures
    to decode, cancels, pins and the choice of slots are arbitrary. */
module Drain {
  import opened Wrappers
  import opened Slots
  import opened UpdateSlots
  import opened Budget
  import opened Progress
  import opened Traces
  import opened TaskQueue
  import opened ProtocolSleep

  // ------------------------------------------------------------------ releases in a trace

  function Releases(events: seq<Event>): nat {
    if events == [] then 0 else Releases(events[..|events| - 1]) + if events[|events| - 1].Released? then 1 else 0
  }

  lemma {:induction false} ReleasesConcat(a: seq<Event>, b: seq<Event>)
    ensures Releases(a + b) == Releases(a) + Releases(b)
    decreases |b|
  {
    if b == [] {
      assert a + b == a;
    } else {
      ReleasesConcat(a, b[..|b| - 1]);
      assert (a + b)[..|a + b| - 1] == a + b[..|b| - 1];
    }
  }

  lemma {:induction false} LegalReleases(w: Watch, events: seq<Event>)
    requires Watched(w, events).Some?
    ensures Idles(Watched(w, events).value.busy) == Idles(w.busy) + Releases(events)
    decreases |events|
  {
    if events != [] {
      var front, e := events[..|events| - 1], events[|events| - 1];
      LegalReleases(w, front);
      if e.Released? { IdlesPut(Watched(w, front).value.busy, e.slot, None); }
    }
  }

  /** Between `w` and `r` as many slots became idle as releases were told. */
  ghost predicate Balanced(w: Work, r: Work) {
    && w.events <= r.events
    && Idles(Tasks(r.slots)) == Idles(Tasks(w.slots)) + Releases(r.events[|w.events|..])
  }

  lemma FollowsBalanced(w: Work, r: Work)
    requires Follows(w, r)
    ensures Balanced(w, r)
  {
    LegalReleases(Steady(w.slots), r.events[|w.events|..]);
    assert r.events[..|w.events|] == w.events;
  }

  lemma BalancedAgain(w: Work, v: Work, r: Work)
    requires Balanced(w, v) && Balanced(v, r)
    ensures Balanced(w, r)
  {
    assert r.events[|w.events|..] == v.events[|w.events|..] + r.events[|v.events|..] by {
      assert r.events == r.events[..|v.events|] + r.events[|v.events|..];
    }
    ReleasesConcat(v.events[|w.events|..], r.events[|v.events|..]);
  }

  lemma GiveUpOneBalanced(w: Work, i: nat)
    requires Shaped(w) && i < |w.slots|
    ensures Balanced(w, GiveUpOne(w, i))
  {
    var s, v := w.slots[i], GiveUpOne(w, i);
    var told := v.events[|w.events|..];
    FreedTask(w.slots, i, Release(s));
    IdlesPut(Tasks(w.slots), i, None);
    if Processing(s) {
      assert told == [Released(i)] + [Sent(s.idTask, Error(KvFull))];
      ReleasesConcat([Released(i)], [Sent(s.idTask, Error(KvFull))]);
      assert [Released(i)][..0] == [];
    } else {
      assert told == [Sent(s.idTask, Error(KvFull))];
    }
    assert [Sent(s.idTask, Error(KvFull))][..0] == [];
  }

  lemma {:induction false} GiveUpBalanced(w: Work, i: nat)
    requires Shaped(w) && i <= |w.slots|
    ensures Balanced(w, GiveUpFrom(w, i))
    decreases |w.slots| - i
  {
    if i < |w.slots| {
      GiveUpOneBalanced(w, i);
      GiveUpBalanced(GiveUpOne(w, i), i + 1);
      BalancedAgain(w, GiveUpOne(w, i), GiveUpFrom(w, i));
    }
  }

  lemma {:induction false} DecodeBalanced(cfg: Config, o: Oracle, l: Loop)
    requires Shaped(l.work) && l.nBatch >= 1
    ensures Balanced(l.work, DecodeFrom(cfg, o, l).work)
    decreases |l.work.batch| - l.i, l.nBatch
  {
    var w := l.work;
    match DecodeTurn(cfg, o, l)
    case Stop(_) => GiveUpBalanced(w, 0);
    case Again(m) =>
      if o.decodes(l.call) == 0 {
        ViewDoneFollows(cfg, o, l.call, l.i, Min(l.nBatch, |w.batch| - l.i), w);
        FollowsBalanced(w, m.work);
      }
      DecodeBalanced(cfg, o, m);
      BalancedAgain(w, m.work, DecodeFrom(cfg, o, l).work);
  }

  /** Every call tells one release for each slot that becomes idle, also when decoding fails for good. */
  lemma UpdateIsBalanced(cfg: Config, sv: Server, o: Oracle)
    requires Valid(sv)
    ensures var r := Update(cfg, sv, o);
            Idles(Tasks(r.server.slots)) == Idles(Tasks(sv.slots)) + Releases(r.events)
  {
    if !AllIdle(sv.slots) {
      var w := Begun(sv);
      var b := BuiltFrom(cfg, o, w);
      BuiltFollows(cfg, o, w);
      FollowsBalanced(w, b);
      DecodeBalanced(cfg, o, Loop(b, 0, cfg.nBatch, 0));
      BalancedAgain(w, b, DecodeFrom(cfg, o, Loop(b, 0, cfg.nBatch, 0)).work);
    }
  }

  // ------------------------------------------------------------------ the loop thread

  datatype Machine = Machine(server: Server, q: Queues)

  /** What a step depends on: the slot that would be picked for a task, and the answers of the library. */
  datatype Choice = Choice(slot: nat, o: Oracle)

  function FirstIdle(slots: seq<Slot>, i: nat): (r: nat)
    requires i <= |slots|
    ensures i <= r <= |slots| && (r < |slots| ==> !Processing(slots[r]))
    ensures r == |slots| ==> forall k :: i <= k < |slots| ==> Processing(slots[k])
    decreases |slots| - i
  {
    if i == |slots| || !Processing(slots[i]) then i else FirstIdle(slots, i + 1)
  }

  /** The slot for a task, or none: the one it is pinned to if that is idle; any idle one if it is free. */
  function SlotFor(slots: seq<Slot>, pin: int, wanted: nat): (r: nat)
    ensures r <= |slots| && (r < |slots| ==> !Processing(slots[r]) && (pin == -1 || pin == r))
    ensures r == |slots| ==> if pin == -1 then forall k :: 0 <= k < |slots| ==> Processing(slots[k])
                             else !(0 <= pin < |slots| && !Processing(slots[pin]))
  {
    if pin == -1 then Pick(slots, wanted)
    else if 0 <= pin < |slots| && !Processing(slots[pin]) then pin else |slots|
  }

  /** Any idle slot, if there is one. */
  function Pick(slots: seq<Slot>, wanted: nat): (r: nat)
    ensures r <= |slots| && (r < |slots| ==> !Processing(slots[r]))
    ensures r == |slots| ==> forall k :: 0 <= k < |slots| ==> Processing(slots[k])
  {
    if wanted < |slots| && !Processing(slots[wanted]) then wanted else FirstIdle(slots, 0)
  }

  function TakeOne(cfg: Config, m: Machine, c: Choice): Machine
    requires m.q.tasks != []
  {
    var r, q, slots := m.q.tasks[0], m.q.(tasks := m.q.tasks[1..]), m.server.slots;
    match r
    case Run(task, pin) =>
      var i := SlotFor(slots, pin, c.slot);
      if i == |slots| then Machine(m.server, q.(deferred := q.deferred + [r]))
      else Machine(m.server.(slots := slots[i := Launch(cfg, slots[i], task, true)]), q)
    case Cancel(_, target) =>
      var i := SlotOf(slots, target, 0);
      if i == |slots| || !Processing(slots[i]) then Machine(m.server, q)
      else Machine(m.server.(slots := slots[i := Release(slots[i])]), Undeferred(q))
    case NextResponse(_) => Machine(m.server, q)
  }

  function UndeferredTimes(q: Queues, n: nat): Queues {
    if n == 0 then q else Undeferred(UndeferredTimes(q, n - 1))
  }

  /** One call with a busy slot: a wake-up is posted, and every release takes a deferred task back. */
  function CallOnce(cfg: Config, m: Machine, c: Choice): Machine
    requires Valid(m.server)
  {
    var r := Update(cfg, m.server, c.o);
    Machine(r.server, UndeferredTimes(Posted(m.q.(nextId := m.q.nextId + 1), NextResponse(m.q.nextId), false),
      Releases(r.events)))
  }

  function ThreadStep(cfg: Config, m: Machine, c: Choice): Machine
    requires Valid(m.server)
  {
    if m.q.tasks != [] then TakeOne(cfg, m, c) else CallOnce(cfg, m, c)
  }

  /** The thread waits on an empty queue. */
  predicate Sleeps(m: Machine) { m.q.tasks == [] && AllIdle(m.server.slots) }

  ghost predicate MachineOk(cfg: Config, m: Machine) {
    Valid(m.server) && |m.server.slots| > 0 && AllReady(cfg, m.server.slots) && AllRuns(m.q.deferred)
  }

  /** Every task can be given to some slot, and if one is deferred there is a slot to be released or a task that will
      be looked at. */
  predicate AllPlaceable(m: Machine) {
    && AllHoused(m.q.tasks, |m.server.slots|) && AllHoused(m.q.deferred, |m.server.slots|)
    && (m.q.deferred != [] ==> !AllIdle(m.server.slots) || RunCount(m.q.tasks) > 0)
  }

  // ------------------------------------------------------------------ the measure

  /** What a task that was not launched yet adds to the work: as much as the slot it will be launched on. */
  function TaskWork(cfg: Config, t: Task): nat {
    |t.prompt| + Cap(cfg, t.params.(nPredict := ClampPredict(cfg, t.params.nPredict))) + 3
  }

  function QueueWork(cfg: Config, rs: seq<Request>): nat {
    if rs == [] then 0 else
    QueueWork(cfg, rs[..|rs| - 1]) + if rs[|rs| - 1].Run? then TaskWork(cfg, rs[|rs| - 1].task) else 0
  }

  function Cancels(rs: seq<Request>): nat {
    if rs == [] then 0 else Cancels(rs[..|rs| - 1]) + if rs[|rs| - 1].Cancel? then 1 else 0
  }

  /** Tokens and steps that are left, in slots and in tasks. */
  function WorkLeft(cfg: Config, m: Machine): nat {
    Sum(cfg, m.server.slots) + QueueWork(cfg, m.q.tasks) + QueueWork(cfg, m.q.deferred)
  }

  /** Requests that are left; a cancel can put another task into the queue. */
  function RequestsLeft(m: Machine): nat { |m.q.tasks| + Cancels(m.q.tasks) }

  lemma {:induction false} QueueConcat(cfg: Config, a: seq<Request>, b: seq<Request>)
    ensures QueueWork(cfg, a + b) == QueueWork(cfg, a) + QueueWork(cfg, b) && Cancels(a + b) == Cancels(a) + Cancels(b)
    decreases |b|
  {
    if b == [] {
      assert a + b == a;
    } else {
      QueueConcat(cfg, a, b[..|b| - 1]);
      assert (a + b)[..|a + b| - 1] == a + b[..|b| - 1];
    }
  }

  lemma QueueOne(cfg: Config, r: Request)
    ensures QueueWork(cfg, [r]) == (if r.Run? then TaskWork(cfg, r.task) else 0)
            && Cancels([r]) == if r.Cancel? then 1 else 0
  {
    assert [r][..0] == [];
  }

  lemma QueueFirst(cfg: Config, rs: seq<Request>)
    requires rs != []
    ensures QueueWork(cfg, rs) == QueueWork(cfg, rs[1..]) + if rs[0].Run? then TaskWork(cfg, rs[0].task) else 0
    ensures Cancels(rs) == Cancels(rs[1..]) + if rs[0].Cancel? then 1 else 0
  {
    assert rs == [rs[0]] + rs[1..];
    QueueConcat(cfg, [rs[0]], rs[1..]);
    QueueOne(cfg, rs[0]);
  }

  lemma {:induction false} SumPut(cfg: Config, slots: seq<Slot>, i: nat, t: Slot)
    requires i < |slots|
    ensures Sum(cfg, slots[i := t]) + Load(cfg, slots[i]) == Sum(cfg, slots) + Load(cfg, t)
  {
    var n := |slots| - 1;
    if i < n {
      SumPut(cfg, slots[..n], i, t);
      assert slots[i := t][..n] == slots[..n][i := t];
    } else {
      assert slots[i := t][..n] == slots[..n];
    }
  }

  lemma UndeferredWork(cfg: Config, q: Queues)
    requires AllRuns(q.deferred)
    ensures var r := Undeferred(q);
            && QueueWork(cfg, r.tasks) + QueueWork(cfg, r.deferred) ==
               QueueWork(cfg, q.tasks) + QueueWork(cfg, q.deferred)
            && Cancels(r.tasks) == Cancels(q.tasks) && |r.tasks| <= |q.tasks| + 1
  {
    if q.deferred != [] {
      QueueFirst(cfg, q.deferred);
      QueueConcat(cfg, q.tasks, [q.deferred[0]]);
      QueueOne(cfg, q.deferred[0]);
    }
  }

  // ------------------------------------------------------------------ the steps

  /** The step keeps the invariant and lowers the measure. */
  ghost predicate GetsOn(cfg: Config, m: Machine, r: Machine) {
    && MachineOk(cfg, r) && |r.server.slots| == |m.server.slots| && (AllPlaceable(m) ==> AllPlaceable(r))
    && (WorkLeft(cfg, r) < WorkLeft(cfg, m)
       || (WorkLeft(cfg, r) == WorkLeft(cfg, m) && RequestsLeft(r) < RequestsLeft(m)))
  }

  lemma LaunchedIsReady(cfg: Config, s: Slot, task: Task)
    ensures var t := Launch(cfg, s, task, true);
            Ready(cfg, t) && Processing(t) && Load(cfg, t) == TaskWork(cfg, task)
  {
  }

  /** One slot is replaced by another that is ready. */
  lemma PutReady(cfg: Config, slots: seq<Slot>, i: nat, t: Slot)
    requires AllReady(cfg, slots) && i < |slots| && Ready(cfg, t)
    ensures var r := slots[i := t];
            && AllReady(cfg, r)
            && Sum(cfg, r) + Load(cfg, slots[i]) == Sum(cfg, slots) + Load(cfg, t)
            && Idles(Tasks(r)) + (if Processing(slots[i]) then 0 else 1) ==
               Idles(Tasks(slots)) + if Processing(t) then 0 else 1
  {
    SumPut(cfg, slots, i, t);
    IdlesPut(Tasks(slots), i, TaskOf(t));
    assert Tasks(slots[i := t]) == Tasks(slots)[i := TaskOf(t)];
  }

  lemma DeferGetsOn(cfg: Config, m: Machine, c: Choice)
    requires MachineOk(cfg, m) && m.q.tasks != [] && m.q.tasks[0].Run?
    requires SlotFor(m.server.slots, m.q.tasks[0].pin, c.slot) == |m.server.slots|
    ensures GetsOn(cfg, m, TakeOne(cfg, m, c))
  {
    QueueFirst(cfg, m.q.tasks);
    QueueConcat(cfg, m.q.deferred, [m.q.tasks[0]]);
    QueueOne(cfg, m.q.tasks[0]);
    if AllPlaceable(m) {
      var pin := m.q.tasks[0].pin;
      assert Processing(m.server.slots[if pin == -1 then 0 else pin]);
    }
  }

  lemma LaunchGetsOn(cfg: Config, m: Machine, c: Choice)
    requires MachineOk(cfg, m) && m.q.tasks != [] && m.q.tasks[0].Run?
    requires SlotFor(m.server.slots, m.q.tasks[0].pin, c.slot) < |m.server.slots|
    ensures GetsOn(cfg, m, TakeOne(cfg, m, c))
  {
    var r, slots, i := m.q.tasks[0], m.server.slots, SlotFor(m.server.slots, m.q.tasks[0].pin, c.slot);
    QueueFirst(cfg, m.q.tasks);
    LaunchedIsReady(cfg, slots[i], r.task);
    PutReady(cfg, slots, i, Launch(cfg, slots[i], r.task, true));
    assert Processing(TakeOne(cfg, m, c).server.slots[i]);
  }

  lemma TakeCancelGetsOn(cfg: Config, m: Machine, c: Choice)
    requires MachineOk(cfg, m) && m.q.tasks != [] && m.q.tasks[0].Cancel?
    ensures GetsOn(cfg, m, TakeOne(cfg, m, c))
  {
    var q, slots := m.q.(tasks := m.q.tasks[1..]), m.server.slots;
    QueueFirst(cfg, m.q.tasks);
    RunCountFirst(m.q.tasks);
    var i := SlotOf(slots, m.q.tasks[0].target, 0);
    if i < |slots| && Processing(slots[i]) {
      PutReady(cfg, slots, i, Release(slots[i]));
      UndeferredRoom(q, |slots|);
      UndeferredWork(cfg, q);
    }
  }

  lemma TakeWakeGetsOn(cfg: Config, m: Machine, c: Choice)
    requires MachineOk(cfg, m) && m.q.tasks != [] && m.q.tasks[0].NextResponse?
    ensures GetsOn(cfg, m, TakeOne(cfg, m, c))
  {
    QueueFirst(cfg, m.q.tasks);
    RunCountFirst(m.q.tasks);
  }

  lemma {:induction false} UndeferredTimesRoom(cfg: Config, q: Queues, n: nat, slots: nat)
    requires AllRuns(q.deferred)
    ensures var r := UndeferredTimes(q, n);
            && AllRuns(r.deferred)
            && (AllHoused(q.tasks, slots) && AllHoused(q.deferred, slots) ==>
                  AllHoused(r.tasks, slots) && AllHoused(r.deferred, slots))
            && QueueWork(cfg, r.tasks) + QueueWork(cfg, r.deferred) ==
               QueueWork(cfg, q.tasks) + QueueWork(cfg, q.deferred)
            && (r.deferred != [] ==> q.deferred != [] && RunCount(r.tasks) == RunCount(q.tasks) + n)
  {
    if n > 0 {
      UndeferredTimesRoom(cfg, q, n - 1, slots);
      UndeferredRoom(UndeferredTimes(q, n - 1), slots);
      UndeferredWork(cfg, UndeferredTimes(q, n - 1));
    }
  }

  /** The queues after a call: the wake-up and the tasks that were taken back. */
  lemma CalledQueues(cfg: Config, q: Queues, n: nat, slots: nat)
    requires q.tasks == [] && AllRuns(q.deferred)
    ensures var r := UndeferredTimes(Posted(q.(nextId := q.nextId + 1), NextResponse(q.nextId), false), n);
            && AllRuns(r.deferred)
            && (AllHoused(q.deferred, slots) ==> AllHoused(r.tasks, slots) && AllHoused(r.deferred, slots))
            && QueueWork(cfg, r.tasks) + QueueWork(cfg, r.deferred) == QueueWork(cfg, q.deferred)
            && (r.deferred != [] ==> q.deferred != [] && RunCount(r.tasks) == n)
  {
    var wake := NextResponse(q.nextId);
    var p := Posted(q.(nextId := q.nextId + 1), wake, false);
    assert p.tasks == [wake];
    QueueOne(cfg, wake);
    RunCountOne(wake);
    UndeferredTimesRoom(cfg, p, n, slots);
  }

  lemma {:induction false} AllIdleCount(busy: seq<Option<int>>)
    ensures Idles(busy) <= |busy| && (Idles(busy) == |busy| <==> forall i :: 0 <= i < |busy| ==> busy[i].None?)
  {
    if busy != [] { AllIdleCount(busy[..|busy| - 1]); }
  }

  /** If every slot was released in the call, one at least was. */
  lemma SomeReleased(a: seq<Slot>, b: seq<Slot>, n: nat)
    requires |a| == |b| && !AllIdle(a) && Idles(Tasks(b)) == Idles(Tasks(a)) + n && AllIdle(b)
    ensures n > 0
  {
    AllIdleCount(Tasks(a));
    AllIdleCount(Tasks(b));
    var i :| 0 <= i < |a| && Processing(a[i]);
    assert Tasks(a)[i].Some?;
  }

  lemma CalledGetsOn(cfg: Config, m: Machine, sv: Server, q: Queues, n: nat)
    requires MachineOk(cfg, m) && m.q.tasks == [] && !AllIdle(m.server.slots)
    requires Valid(sv) && |sv.slots| == |m.server.slots| && AllReady(cfg, sv.slots)
             && Sum(cfg, sv.slots) < Sum(cfg, m.server.slots)
    requires Idles(Tasks(sv.slots)) == Idles(Tasks(m.server.slots)) + n
    requires q == UndeferredTimes(Posted(m.q.(nextId := m.q.nextId + 1), NextResponse(m.q.nextId), false), n)
    ensures GetsOn(cfg, m, Machine(sv, q))
  {
    CalledQueues(cfg, m.q, n, |sv.slots|);
    if AllIdle(sv.slots) { SomeReleased(m.server.slots, sv.slots, n); }
  }

  lemma CallGetsOn(cfg: Config, m: Machine, c: Choice)
    requires MachineOk(cfg, m) && m.q.tasks == [] && !AllIdle(m.server.slots)
    requires forall k: nat :: c.o.removes(k)
    ensures GetsOn(cfg, m, CallOnce(cfg, m, c))
  {
    hide Update, GetsOn, Releases, UndeferredTimes;
    UpdateMakesProgress(cfg, m.server, c.o);
    UpdateIsBalanced(cfg, m.server, c.o);
    CalledGetsOn(cfg, m, Update(cfg, m.server, c.o).server, CallOnce(cfg, m, c).q,
      Releases(Update(cfg, m.server, c.o).events));
  }

  lemma StepGetsOn(cfg: Config, m: Machine, c: Choice)
    requires MachineOk(cfg, m) && !Sleeps(m)
    requires forall k: nat :: c.o.removes(k)
    ensures GetsOn(cfg, m, ThreadStep(cfg, m, c))
  {
    if m.q.tasks == [] {
      CallGetsOn(cfg, m, c);
    } else {
      match m.q.tasks[0]
      case Run(_, _) =>
        var i := SlotFor(m.server.slots, m.q.tasks[0].pin, c.slot);
        if i == |m.server.slots| { DeferGetsOn(cfg, m, c); } else { LaunchGetsOn(cfg, m, c); }
      case Cancel(_, _) => TakeCancelGetsOn(cfg, m, c);
      case NextResponse(_) => TakeWakeGetsOn(cfg, m, c);
    }
  }

  /** `n` steps of the loop thread, or fewer if it falls asleep. */
  ghost function RunThread(cfg: Config, m: Machine, choices: nat -> Choice, from: nat, n: nat): (r: Machine)
    requires Valid(m.server)
    decreases n
  {
    if n == 0 || Sleeps(m) then m else RunThread(cfg, ThreadStep(cfg, m, choices(from)), choices, from + 1, n - 1)
  }

  /** The thread comes to sleep, with nothing deferred if every task can be given to some slot. */
  ghost predicate Drains(cfg: Config, m: Machine, choices: nat -> Choice, from: nat, n: nat)
    requires Valid(m.server)
  {
    var r := RunThread(cfg, m, choices, from, n);
    Sleeps(r) && (AllPlaceable(m) ==> r.q.deferred == [])
  }

  lemma DrainsOn(cfg: Config, m: Machine, choices: nat -> Choice, from: nat, n: nat)
    requires MachineOk(cfg, m) && !Sleeps(m) && GetsOn(cfg, m, ThreadStep(cfg, m, choices(from)))
    requires Drains(cfg, ThreadStep(cfg, m, choices(from)), choices, from + 1, n)
    ensures Drains(cfg, m, choices, from, n + 1)
  {
    hide ThreadStep;
    assert RunThread(cfg, m, choices, from, n + 1) ==
      RunThread(cfg, ThreadStep(cfg, m, choices(from)), choices, from + 1, n);
  }

  /** Everything drains: whatever the samplers and the draft model return, however often decoding fails and whichever
      slots are picked, after finitely many steps (each of them lowers the measure) the loop thread sleeps, with all
      slots idle and an empty queue; and nothing is deferred if every task can be given to some slot. */
  lemma {:induction false} EverythingDrains(cfg: Config, m: Machine, choices: nat -> Choice, from: nat)
    requires MachineOk(cfg, m) && forall j: nat, k: nat :: choices(j).o.removes(k)
    ensures exists n: nat :: Drains(cfg, m, choices, from, n)
    decreases WorkLeft(cfg, m), RequestsLeft(m)
  {
    if Sleeps(m) {
      assert Drains(cfg, m, choices, from, 0);
    } else {
      StepGetsOn(cfg, m, choices(from));
      hide ThreadStep, RunThread, Drains;
      EverythingDrains(cfg, ThreadStep(cfg, m, choices(from)), choices, from + 1);
      var n: nat :| Drains(cfg, ThreadStep(cfg, m, choices(from)), choices, from + 1, n);
      DrainsOn(cfg, m, choices, from, n);
    }
  }
}
