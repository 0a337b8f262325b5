/** What holds in every run of the protocol, whatever the tasks are pinned to and whether or not they can be
    launched: tasks are conserved and answered once, and results are delivered in order and without loss. */
module ProtocolSafety {
  import opened Wrappers
  import opened Slots
  import opened TaskQueue
  import opened ResultQueue
  import opened Traces
  import opened Protocol

  // ------------------------------------------------------------------ where a task is

  function Runs(rs: seq<Request>, id: int): nat {
    if rs == [] then 0 else
    Runs(rs[..|rs| - 1], id) + if rs[|rs| - 1].Run? && rs[|rs| - 1].task.id == id then 1 else 0
  }

  function OnSlots(busy: seq<Option<int>>, id: int): nat {
    if busy == [] then 0 else OnSlots(busy[..|busy| - 1], id) + if busy[|busy| - 1] == Some(id) then 1 else 0
  }

  function InHand(pc: Pc, id: int): nat {
    if pc.Handling? && pc.request.Run? && pc.request.task.id == id then 1 else 0
  }

  /** In how many places a task is: queued, deferred, in the hands of the loop thread, on slots, and finished. */
  function Places(st: System, id: int): nat {
    Runs(st.q.tasks, id) + Runs(st.q.deferred, id) + InHand(st.pc, id) + OnSlots(st.watch.busy, id)
    + if id in st.done then 1 else 0
  }

  lemma {:induction false} RunsConcat(a: seq<Request>, b: seq<Request>, id: int)
    ensures Runs(a + b, id) == Runs(a, id) + Runs(b, id)
    decreases |b|
  {
    if b == [] {
      assert a + b == a;
    } else {
      RunsConcat(a, b[..|b| - 1], id);
      assert (a + b)[..|a + b| - 1] == a + b[..|b| - 1];
    }
  }

  lemma RunsOne(r: Request, id: int)
    ensures Runs([r], id) == if r.Run? && r.task.id == id then 1 else 0
  {
    assert [r][..0] == [];
  }

  lemma RunsFirst(rs: seq<Request>, id: int)
    requires rs != []
    ensures Runs(rs, id) == Runs([rs[0]], id) + Runs(rs[1..], id)
  {
    assert rs == [rs[0]] + rs[1..];
    RunsConcat([rs[0]], rs[1..], id);
  }

  lemma {:induction false} RunsSpared(rs: seq<Request>, target: int, id: int)
    requires target != -1
    ensures Runs(Spared(rs, target), id) == Runs(rs, id)
  {
    if rs != [] {
      RunsSpared(rs[..|rs| - 1], target, id);
      RunsConcat(Spared(rs[..|rs| - 1], target), [rs[|rs| - 1]], id);
      RunsOne(rs[|rs| - 1], id);
    }
  }

  lemma {:induction false} SlotsPut(busy: seq<Option<int>>, i: nat, x: Option<int>, id: int)
    requires i < |busy|
    ensures OnSlots(busy[i := x], id) + (if busy[i] == Some(id) then 1 else 0)
            == OnSlots(busy, id) + if x == Some(id) then 1 else 0
  {
    var n := |busy| - 1;
    if i < n {
      SlotsPut(busy[..n], i, x, id);
      assert busy[i := x][..n] == busy[..n][i := x];
    } else {
      assert busy[i := x][..n] == busy[..n];
    }
  }

  lemma {:induction false} SlotsAt(busy: seq<Option<int>>, i: nat, id: int)
    requires i < |busy| && busy[i] == Some(id)
    ensures OnSlots(busy, id) >= 1
  {
    if i < |busy| - 1 { SlotsAt(busy[..|busy| - 1], i, id); }
  }

  lemma {:induction false} SlotsOfNone(busy: seq<Option<int>>, id: int)
    requires forall i :: 0 <= i < |busy| ==> busy[i].None?
    ensures OnSlots(busy, id) == 0
  {
    if busy != [] { SlotsOfNone(busy[..|busy| - 1], id); }
  }

  lemma UndeferredConserves(q: Queues, id: int)
    ensures var r := Undeferred(q); Runs(r.tasks, id) + Runs(r.deferred, id) == Runs(q.tasks, id) + Runs(q.deferred, id)
  {
    if q.deferred != [] {
      RunsFirst(q.deferred, id);
      RunsConcat(q.tasks, [q.deferred[0]], id);
    }
  }

  // ------------------------------------------------------------------ conservation

  predicate CancelsOk(rs: seq<Request>) { forall j :: 0 <= j < |rs| && rs[j].Cancel? ==> rs[j].target >= 0 }

  /** A busy slot runs the task it was given last, ids in use were drawn, and cancels name task ids. */
  ghost predicate Shape(st: System) {
    && |st.ids| == |st.watch.busy|
    && (forall i :: 0 <= i < |st.ids| && st.watch.busy[i].Some? ==> st.watch.busy[i].value == st.ids[i])
    && (st.pc != Updating ==> st.watch.due.Nothing?)
    && 0 <= st.q.nextId && (forall id :: id in st.stage ==> 0 <= id < st.q.nextId)
    && CancelsOk(st.q.tasks) && CancelsOk(st.q.deferred)
    && (st.pc.Handling? && st.pc.request.Cancel? ==> st.pc.request.target >= 0)
  }

  lemma {:induction false} SparedCancelsOk(rs: seq<Request>, target: int)
    requires CancelsOk(rs)
    ensures CancelsOk(Spared(rs, target))
  {
    if rs != [] { SparedCancelsOk(rs[..|rs| - 1], target); }
  }

  lemma PostCancelIs(st: System, id: int)
    ensures var q := st.q.(nextId := st.q.nextId + 1);
            DoPostCancel(st, id) == if id in st.stage && st.stage[id] == Gone
                                    then st.(q := Posted(q, Cancel(st.q.nextId, id), true)) else st
  {
    assert PostedAll(st.q, [Cancel(-1, id)], true, 0) == st.q;
  }

  lemma ShapeKept(st: System, s: Step)
    requires Shape(st)
    ensures Shape(Next(st, s))
  {
    hide DoHandle, DoTell;
    match s
    case PostCancel(id) =>
      PostCancelIs(st, id);
      SparedCancelsOk(st.q.tasks, id);
      SparedCancelsOk(st.q.deferred, id);
    case Handle(slot, ok) => HandleKeepsShape(st, slot, ok);
    case Tell(e) => TellKeepsShape(st, e);
    case _ =>
  }

  lemma HandleKeepsShape(st: System, slot: nat, ok: bool)
    requires Shape(st)
    ensures Shape(DoHandle(st, slot, ok))
  {
    if st.pc.Handling? {
      match st.pc.request
      case Run(task, pin) => RunKeepsShape(st, task, pin, slot, ok);
      case Cancel(_, target) => CancelKeepsShape(st, target);
      case NextResponse(_) =>
    }
  }

  lemma RunKeepsShape(st: System, task: Task, pin: int, slot: nat, ok: bool)
    requires Shape(st) && st.pc == Handling(Run(task, pin))
    ensures Shape(DoRun(st, task, pin, slot, ok))
  {
  }

  lemma CancelKeepsShape(st: System, target: int)
    requires Shape(st) && st.pc.Handling?
    ensures Shape(DoCancel(st, target))
  {
  }

  lemma TellKeepsShape(st: System, e: Event)
    requires Shape(st)
    ensures Shape(DoTell(st, e))
  {
  }

  /** A posted task is in exactly one place, any other in none. */
  predicate Conserved(st: System, id: int) {
    Places(st, id) == if WasPosted(st, id) then 1 else 0
  }

  lemma PostConserves(st: System, task: Task, pin: int, id: int)
    requires Shape(st) && Conserved(st, id)
    ensures Conserved(DoPost(st, task, pin), id)
  {
    RunsConcat(st.q.tasks, [Run(task, pin)], id);
    RunsOne(Run(task, pin), id);
  }

  lemma PostCancelConserves(st: System, target: int, id: int)
    requires Shape(st) && Conserved(st, id)
    ensures Conserved(DoPostCancel(st, target), id)
  {
    if target in st.stage && st.stage[target] == Gone {
      var q := st.q.(nextId := st.q.nextId + 1);
      var r := Cancel(st.q.nextId, target);
      PostCancelIs(st, target);
      RunsSpared(st.q.tasks, target, id);
      RunsSpared(st.q.deferred, target, id);
      RunsConcat([r], Spared(st.q.tasks, target), id);
      RunsOne(r, id);
    }
  }

  lemma PopConserves(st: System, id: int)
    requires Shape(st) && Conserved(st, id)
    ensures Conserved(DoPop(st), id)
  {
    if st.pc == Picking && st.q.tasks != [] {
      RunsFirst(st.q.tasks, id);
      RunsOne(st.q.tasks[0], id);
    }
  }

  lemma RunConserves(st: System, task: Task, pin: int, slot: nat, ok: bool, id: int)
    requires Shape(st) && Conserved(st, id) && st.pc == Handling(Run(task, pin))
    ensures Conserved(DoRun(st, task, pin, slot, ok), id)
  {
    hide Runs, OnSlots;
    if MustDefer(st, pin) {
      RunsConcat(st.q.deferred, [Run(task, pin)], id);
      RunsOne(Run(task, pin), id);
    } else if CanTake(st, pin, slot) {
      SlotsPut(st.watch.busy, slot, Some(task.id), id);
    }
  }

  lemma CancelConserves(st: System, target: int, id: int)
    requires Shape(st) && Conserved(st, id) && st.pc.Handling? && st.pc.request.Cancel?
    ensures Conserved(DoCancel(st, target), id)
  {
    hide Undeferred, OnSlots, Runs, SlotWith;
    var i := SlotWith(st.ids, target, 0);
    if i < |st.ids| && st.watch.busy[i].Some? {
      SlotsPut(st.watch.busy, i, None, id);
      UndeferredConserves(st.q, id);
      if id == target { SlotsAt(st.watch.busy, i, id); }
    }
  }

  lemma HandleConserves(st: System, slot: nat, ok: bool, id: int)
    requires Shape(st) && Conserved(st, id)
    ensures Conserved(DoHandle(st, slot, ok), id)
  {
    if st.pc.Handling? {
      match st.pc.request
      case Run(task, pin) => RunConserves(st, task, pin, slot, ok, id);
      case Cancel(_, target) => CancelConserves(st, target, id);
      case NextResponse(_) =>
    }
  }

  lemma WakeConserves(st: System, id: int)
    requires Shape(st) && Conserved(st, id)
    ensures Conserved(DoWake(st), id)
  {
    if st.pc.Posting? {
      RunsConcat(st.q.tasks, [NextResponse(st.pc.id)], id);
      RunsOne(NextResponse(st.pc.id), id);
    }
  }

  lemma TellConserves(st: System, e: Event, id: int)
    requires Shape(st) && Conserved(st, id)
    ensures Conserved(DoTell(st, e), id)
  {
    hide Undeferred, OnSlots, Runs, SentTo;
    if st.pc == Updating && Move(st.watch, e).Some? && e.Released? {
      var i := e.slot;
      SlotsPut(st.watch.busy, i, None, id);
      UndeferredConserves(st.q, id);
      if st.watch.busy[i] == Some(id) { SlotsAt(st.watch.busy, i, id); }
    }
  }

  /** The task is where it was. */
  lemma StillConserved(st: System, r: System, id: int)
    requires Conserved(st, id) && WasPosted(r, id) == WasPosted(st, id)
    requires r.q.tasks == st.q.tasks && r.q.deferred == st.q.deferred && r.watch.busy == st.watch.busy
    requires r.done == st.done && InHand(r.pc, id) == InHand(st.pc, id)
    ensures Conserved(r, id)
  {
  }

  lemma StepConserves(st: System, s: Step, id: int)
    requires Shape(st) && Conserved(st, id)
    ensures Conserved(Next(st, s), id)
  {
    hide DoPost, DoPostCancel, DoPop, DoHandle, DoWake, DoTell, Conserved, Received;
    match s
    case Post(task, pin) => PostConserves(st, task, pin, id);
    case PostCancel(target) => PostCancelConserves(st, target, id);
    case Pop => PopConserves(st, id);
    case Handle(slot, ok) => HandleConserves(st, slot, ok, id);
    case Wake => WakeConserves(st, id);
    case Tell(e) => TellConserves(st, e, id);
    case _ => StillConserved(st, Next(st, s), id);
  }

  // ------------------------------------------------------------------ answers

  /** The number of final results among these. */
  function Ends(replies: seq<Reply>): nat {
    if replies == [] then 0 else Ends(replies[..|replies| - 1]) + if replies[|replies| - 1].Partial? then 0 else 1
  }

  lemma {:induction false} EndsConcat(a: seq<Reply>, b: seq<Reply>)
    ensures Ends(a + b) == Ends(a) + Ends(b)
    decreases |b|
  {
    if b == [] {
      assert a + b == a;
    } else {
      EndsConcat(a, b[..|b| - 1]);
      assert (a + b)[..|a + b| - 1] == a + b[..|b| - 1];
    }
  }

  lemma EndsOne(r: Reply)
    ensures Ends([r]) == if r.Partial? then 0 else 1
  {
    assert [r][..0] == [];
  }

  function EndOf(st: System, id: int): Option<End> { if id in st.done then Some(st.done[id]) else None }

  /** A task has had its one final result exactly when it is finished and was not cancelled, up to the moment
      between a slot's release and its answer; nothing is sent after it; and what is due belongs to the task. */
  predicate Answering(due: Due, told: seq<Reply>, end: Option<End>, onSlots: nat, id: int) {
    && Ends(told) == (if due == Answer(id) then 0
                      else if due == Freeing(id) || (end.Some? && end.value != Cancelled) then 1 else 0)
    && (Ends(told) > 0 ==> told != [] && !told[|told| - 1].Partial?)
    && (due == Answer(id) ==> end == Some(Replied))
    && (due == Freeing(id) ==> onSlots >= 1)
  }

  predicate AnsweredOnce(st: System, id: int) {
    Answering(st.watch.due, Of(st.told, id), EndOf(st, id), OnSlots(st.watch.busy, id), id)
  }

  lemma {:induction false} InBusy(busy: seq<Option<int>>, id: int)
    ensures Some(id) in busy <==> OnSlots(busy, id) >= 1
  {
    if busy != [] {
      InBusy(busy[..|busy| - 1], id);
      assert busy == busy[..|busy| - 1] + [busy[|busy| - 1]];
    }
  }

  lemma ToldOne(told: seq<Result>, r: Result, id: int)
    ensures Of(told + [r], id) == if r.id == id then Of(told, id) + [r.reply] else Of(told, id)
    ensures r.id == id ==> Ends(Of(told + [r], id)) == Ends(Of(told, id)) + if r.reply.Partial? then 0 else 1
  {
    OfAppend(told, r, id);
    EndsConcat(Of(told, id), [r.reply]);
    EndsOne(r.reply);
  }

  /** Nothing that concerns the task changes. */
  lemma QuietAnswersOnce(st: System, r: System, id: int)
    requires AnsweredOnce(st, id)
    requires Of(r.told, id) == Of(st.told, id) && EndOf(r, id) == EndOf(st, id)
             && OnSlots(r.watch.busy, id) == OnSlots(st.watch.busy, id)
    requires r.watch.due == Answer(id) <==> st.watch.due == Answer(id)
    requires r.watch.due == Freeing(id) <==> st.watch.due == Freeing(id)
    ensures AnsweredOnce(r, id)
  {
  }

  lemma RunAnswersOnce(st: System, task: Task, pin: int, slot: nat, ok: bool, id: int)
    requires Shape(st) && Conserved(st, id) && AnsweredOnce(st, id) && st.pc == Handling(Run(task, pin))
    ensures AnsweredOnce(DoRun(st, task, pin, slot, ok), id)
  {
    ToldOne(st.told, Result(task.id, Error(BadGrammar)), id);
  }

  lemma CancelAnswersOnce(st: System, target: int, id: int)
    requires Shape(st) && Conserved(st, id) && AnsweredOnce(st, id) && st.pc.Handling? && st.pc.request.Cancel?
    ensures AnsweredOnce(DoCancel(st, target), id)
  {
    var i := SlotWith(st.ids, target, 0);
    if i < |st.ids| && st.watch.busy[i] == Some(id) { SlotsAt(st.watch.busy, i, id); }
  }

  lemma HandleAnswersOnce(st: System, slot: nat, ok: bool, id: int)
    requires Shape(st) && Conserved(st, id) && AnsweredOnce(st, id)
    ensures AnsweredOnce(DoHandle(st, slot, ok), id)
  {
    if st.pc.Handling? {
      match st.pc.request
      case Run(task, pin) => RunAnswersOnce(st, task, pin, slot, ok, id);
      case Cancel(_, target) => CancelAnswersOnce(st, target, id);
      case NextResponse(_) =>
    }
  }

  lemma ReleaseAnswersOnce(st: System, i: nat, id: int)
    requires Shape(st) && Conserved(st, id) && AnsweredOnce(st, id)
    ensures AnsweredOnce(DoTell(st, Released(i)), id)
  {
    if st.pc == Updating && Move(st.watch, Released(i)).Some? {
      SlotsPut(st.watch.busy, i, None, id);
      if st.watch.busy[i] == Some(id) { SlotsAt(st.watch.busy, i, id); }
    }
  }

  lemma SentMoves(w: Watch, t: int, reply: Reply)
    requires Move(w, Sent(t, reply)).Some?
    ensures var v := Move(w, Sent(t, reply)).value;
            && v.busy == w.busy
            && (if w.due == Answer(t) then v.due.Nothing? && !reply.Partial?
                else w.due.Nothing? && Some(t) in w.busy && v.due == if reply.Partial? then Nothing else Freeing(t))
  {
  }

  lemma OwnSendAnswersOnce(st: System, id: int, reply: Reply)
    requires Shape(st) && Conserved(st, id) && AnsweredOnce(st, id)
    requires st.pc == Updating && Move(st.watch, Sent(id, reply)).Some?
    ensures AnsweredOnce(DoTell(st, Sent(id, reply)), id)
  {
    SentMoves(st.watch, id, reply);
    ToldOne(st.told, Result(id, reply), id);
    InBusy(st.watch.busy, id);
  }

  lemma OtherSendAnswersOnce(st: System, t: int, reply: Reply, id: int)
    requires AnsweredOnce(st, id) && t != id && st.pc == Updating && Move(st.watch, Sent(t, reply)).Some?
    ensures AnsweredOnce(DoTell(st, Sent(t, reply)), id)
  {
    SentMoves(st.watch, t, reply);
    OfAppend(st.told, Result(t, reply), id);
    QuietAnswersOnce(st, DoTell(st, Sent(t, reply)), id);
  }

  lemma SendAnswersOnce(st: System, t: int, reply: Reply, id: int)
    requires Shape(st) && Conserved(st, id) && AnsweredOnce(st, id)
    ensures AnsweredOnce(DoTell(st, Sent(t, reply)), id)
  {
    if st.pc == Updating && Move(st.watch, Sent(t, reply)).Some? {
      if t == id { OwnSendAnswersOnce(st, id, reply); } else { OtherSendAnswersOnce(st, t, reply, id); }
    }
  }

  lemma StepAnswersOnce(st: System, s: Step, id: int)
    requires Shape(st) && Conserved(st, id) && AnsweredOnce(st, id)
    ensures AnsweredOnce(Next(st, s), id)
  {
    hide DoHandle;
    match s
    case Handle(slot, ok) => HandleAnswersOnce(st, slot, ok, id);
    case Tell(Released(i)) => ReleaseAnswersOnce(st, i, id);
    case Tell(Sent(t, reply)) => SendAnswersOnce(st, t, reply, id);
    case _ =>
  }

  // ------------------------------------------------------------------ delivery

  function StageOf(st: System, id: int): Option<Stage> { if id in st.stage then Some(st.stage[id]) else None }

  /** Results wait only for tasks that are waited for; for these, everything sent was received or waits, in
      order; a task that was not posted has no results. */
  predicate Mail(waits: bool, stage: Option<Stage>, told: seq<Reply>, got: seq<Reply>, pending: seq<Reply>) {
    && (waits <==> stage == Some(Registered) || stage == Some(Submitted) || stage == Some(Answered))
    && (pending != [] ==> waits)
    && (waits ==> told == got + pending)
    && (stage.None? || stage == Some(Drawn) || stage == Some(Registered) ==> told == [] && got == [])
    && (stage == Some(Answered) ==> Ends(got) > 0)
    && (stage == Some(Submitted) ==> Ends(got) == 0)
  }

  predicate Delivered(st: System, id: int) {
    Mail(id in st.box.waiting, StageOf(st, id), Of(st.told, id), Got(st, id), Of(st.box.results, id))
  }

  /** The state after a result was sent. */
  function WithSent(st: System, r: Result): System { st.(box := SentTo(st.box, r), told := st.told + [r]) }

  lemma OwnSentDelivers(st: System, r: Result)
    requires Delivered(st, r.id) && WasPosted(st, r.id)
    ensures Delivered(WithSent(st, r), r.id)
  {
    OfAppend(st.told, r, r.id);
    OfAppend(st.box.results, r, r.id);
  }

  lemma OtherSentDelivers(st: System, r: Result, id: int)
    requires Delivered(st, id) && r.id != id
    ensures Delivered(WithSent(st, r), id)
  {
    OfAppend(st.told, r, id);
    OfAppend(st.box.results, r, id);
  }

  lemma SentDelivers(st: System, r: Result, id: int)
    requires Delivered(st, id) && (r.id == id ==> WasPosted(st, id))
    ensures Delivered(WithSent(st, r), id)
  {
    if r.id == id { OwnSentDelivers(st, r); } else { OtherSentDelivers(st, r, id); }
  }

  lemma OwnReceiveDelivers(st: System, id: int)
    requires Delivered(st, id)
    ensures Delivered(DoReceive(st, id), id)
  {
    ReceivedIsOldest(st.box, id, id);
    var res := Received(st.box, {id}).0;
    if res.Some? {
      EndsConcat(Got(st, id), [res.value.reply]);
      EndsOne(res.value.reply);
    }
  }

  lemma OtherReceiveDelivers(st: System, which: int, id: int)
    requires Delivered(st, id) && which != id
    ensures Delivered(DoReceive(st, which), id)
  {
    ReceivedIsOldest(st.box, which, id);
  }

  lemma RemoveDelivers(st: System, which: int, id: int)
    requires Delivered(st, id)
    ensures Delivered(DoRemove(st, which), id)
  {
    OfWithout(st.box.results, id, which);
  }

  lemma RunDelivers(st: System, task: Task, pin: int, slot: nat, ok: bool, id: int)
    requires Shape(st) && Conserved(st, id) && Delivered(st, id) && st.pc == Handling(Run(task, pin))
    ensures Delivered(DoRun(st, task, pin, slot, ok), id)
  {
    if !MustDefer(st, pin) && CanTake(st, pin, slot) && !ok {
      SentDelivers(st, Result(task.id, Error(BadGrammar)), id);
      QuietDelivers(WithSent(st, Result(task.id, Error(BadGrammar))), DoRun(st, task, pin, slot, ok), id);
    } else {
      QuietDelivers(st, DoRun(st, task, pin, slot, ok), id);
    }
  }

  lemma HandleDelivers(st: System, slot: nat, ok: bool, id: int)
    requires Shape(st) && Conserved(st, id) && Delivered(st, id)
    ensures Delivered(DoHandle(st, slot, ok), id)
  {
    if st.pc.Handling? && st.pc.request.Run? { RunDelivers(st, st.pc.request.task, st.pc.request.pin, slot, ok, id); }
  }

  /** A step that leaves clients and results alone. */
  lemma QuietDelivers(st: System, r: System, id: int)
    requires Delivered(st, id)
    requires r.box == st.box && r.stage == st.stage && r.got == st.got && r.told == st.told
    ensures Delivered(r, id)
  {
  }

  /** Results are sent for posted tasks only. */
  lemma SentIsPosted(st: System, id: int, reply: Reply)
    requires Conserved(st, id) && AnsweredOnce(st, id) && Move(st.watch, Sent(id, reply)).Some?
    ensures WasPosted(st, id)
  {
    SentMoves(st.watch, id, reply);
    InBusy(st.watch.busy, id);
    hide Move, OnSlots, Runs, Of, Ends;
  }

  lemma SentTellDelivers(st: System, t: int, reply: Reply, id: int)
    requires Conserved(st, id) && AnsweredOnce(st, id) && Delivered(st, id)
    requires st.pc == Updating && Move(st.watch, Sent(t, reply)).Some?
    ensures Delivered(DoTell(st, Sent(t, reply)), id)
  {
    if t == id { SentIsPosted(st, id, reply); }
    hide Move, AnsweredOnce, Conserved, SentTo, WasPosted, Delivered;
    SentDelivers(st, Result(t, reply), id);
    QuietDelivers(WithSent(st, Result(t, reply)), DoTell(st, Sent(t, reply)), id);
  }

  lemma TellDelivers(st: System, e: Event, id: int)
    requires Shape(st) && Conserved(st, id) && AnsweredOnce(st, id) && Delivered(st, id)
    ensures Delivered(DoTell(st, e), id)
  {
    hide AnsweredOnce, Conserved, Delivered, Move;
    if st.pc == Updating && Move(st.watch, e).Some? && e.Sent? {
      SentTellDelivers(st, e.task, e.reply, id);
    } else {
      QuietDelivers(st, DoTell(st, e), id);
    }
  }

  lemma EnterDelivers(st: System, s: Step, id: int)
    requires Shape(st) && Conserved(st, id) && Delivered(st, id) && (s.NewId? || s.Register? || s.Post?)
    ensures Delivered(Next(st, s), id)
  {
  }

  lemma StepDelivers(st: System, s: Step, id: int)
    requires Shape(st) && Conserved(st, id) && AnsweredOnce(st, id) && Delivered(st, id)
    ensures Delivered(Next(st, s), id)
  {
    hide DoReceive, DoRemove, DoHandle, DoTell, Delivered, AnsweredOnce, Conserved, Shape;
    match s
    case NewId => EnterDelivers(st, s, id);
    case Register(_) => EnterDelivers(st, s, id);
    case Post(_, _) => EnterDelivers(st, s, id);
    case Receive(which) => if which == id { OwnReceiveDelivers(st, id); } else { OtherReceiveDelivers(st, which, id); }
    case Remove(which) => RemoveDelivers(st, which, id);
    case PostCancel(which) => PostCancelIs(st, which); QuietDelivers(st, DoPostCancel(st, which), id);
    case Handle(slot, ok) => HandleDelivers(st, slot, ok, id);
    case Tell(e) => TellDelivers(st, e, id);
    case Pop => QuietDelivers(st, DoPop(st), id);
    case Begin => QuietDelivers(st, DoBegin(st), id);
    case Wake => QuietDelivers(st, DoWake(st), id);
    case Finish => QuietDelivers(st, DoFinish(st), id);
    case Rest => QuietDelivers(st, DoRest(st), id);
  }

  // ------------------------------------------------------------------ every run

  ghost predicate Sound(st: System, id: int) {
    Shape(st) && Conserved(st, id) && AnsweredOnce(st, id) && Delivered(st, id)
  }

  lemma InitIsSound(n: nat, id: int)
    ensures Sound(Init(n), id)
  {
    SlotsOfNone(Init(n).watch.busy, id);
  }

  lemma StepKeepsSound(st: System, s: Step, id: int)
    requires Sound(st, id)
    ensures Sound(Next(st, s), id)
  {
    ShapeKept(st, s);
    StepConserves(st, s, id);
    StepAnswersOnce(st, s, id);
    StepDelivers(st, s, id);
  }

  lemma {:induction false} RunIsSound(n: nat, steps: seq<Step>, id: int)
    ensures Sound(After(Init(n), steps), id)
    decreases |steps|
  {
    if steps == [] {
      InitIsSound(n, id);
    } else {
      RunIsSound(n, steps[..|steps| - 1], id);
      StepKeepsSound(After(Init(n), steps[..|steps| - 1]), steps[|steps| - 1], id);
    }
  }

  /** In every interleaving a posted task is in exactly one place: in the queue, deferred, in the hands of the loop
      thread, on one slot, or finished; and a task that was not posted is nowhere. */
  lemma TasksAreConserved(n: nat, steps: seq<Step>, id: int)
    ensures var st := After(Init(n), steps);
            Places(st, id) == if WasPosted(st, id) then 1 else 0
  {
    RunIsSound(n, steps, id);
  }

  /** In every interleaving a task gets at most one final result: none if a cancel took it off its slot, and
      exactly one if its slot was released in any other way, from the moment the answer is sent. Nothing is
      sent for it after that. */
  lemma TasksAreAnsweredOnce(n: nat, steps: seq<Step>, id: int)
    ensures var st := After(Init(n), steps);
            var told := Of(st.told, id);
            && Ends(told) <= 1
            && (Ends(told) == 1 ==> !told[|told| - 1].Partial?)
            && (id in st.done && st.done[id] == Cancelled ==> Ends(told) == 0)
            && (id in st.done && st.done[id] != Cancelled && st.watch.due != Answer(id) ==> Ends(told) == 1)
            && (Ends(told) == 1 ==> st.watch.due == Freeing(id) || (id in st.done && st.done[id] != Cancelled))
  {
    RunIsSound(n, steps, id);
  }

  /** In every interleaving, while a task is waited for, its client has received and will receive exactly what was
      sent, in order; results wait only for such tasks; and a client with its final result has received all. */
  lemma DeliveryIsLossless(n: nat, steps: seq<Step>, id: int)
    ensures var st := After(Init(n), steps);
            && (id in st.box.waiting ==> Of(st.told, id) == Got(st, id) + Of(st.box.results, id))
            && (Of(st.box.results, id) != [] ==> id in st.box.waiting)
            && (id in st.stage && st.stage[id] == Answered ==>
                  Got(st, id) == Of(st.told, id) && Of(st.box.results, id) == [])
  {
    RunIsSound(n, steps, id);
    var st := After(Init(n), steps);
    if id in st.stage && st.stage[id] == Answered {
      EndsConcat(Got(st, id), Of(st.box.results, id));
    }
  }

  predicate IsGone(st: System, id: int) { id in st.stage && st.stage[id] == Gone }

  lemma StepKeepsGone(st: System, s: Step, id: int)
    requires Shape(st) && IsGone(st, id)
    ensures IsGone(Next(st, s), id)
  {
  }

  lemma {:induction false} RunKeepsGone(st: System, more: seq<Step>, id: int)
    requires Shape(st) && IsGone(st, id)
    ensures Shape(After(st, more)) && IsGone(After(st, more), id)
    decreases |more|
  {
    if more != [] {
      var front := more[..|more| - 1];
      RunKeepsGone(st, front, id);
      ShapeKept(After(st, front), more[|more| - 1]);
      StepKeepsGone(After(st, front), more[|more| - 1], id);
    }
  }

  /** Once a task was released or cancelled, no result for it is ever queued again. */
  lemma GoneStaysGone(n: nat, steps: seq<Step>, more: seq<Step>, id: int)
    requires IsGone(After(Init(n), steps), id)
    ensures var st := After(Init(n), steps + more); IsGone(st, id) && Of(st.box.results, id) == []
  {
    RunIsSound(n, steps, id);
    RunIsSound(n, steps + more, id);
    RunKeepsGone(After(Init(n), steps), more, id);
    AfterConcat(Init(n), steps, more);
  }

  // ------------------------------------------------------------------ ids

  /** Every id in use was drawn: those of clients' tasks, and those of cancels and wake-ups on their way. */
  ghost predicate IdsBelow(st: System) {
    && (forall id :: id in st.stage ==> id < st.q.nextId)
    && (forall r :: r in st.q.tasks || r in st.q.deferred ==> Id(r) < st.q.nextId)
    && (st.pc.Handling? ==> Id(st.pc.request) < st.q.nextId) && (st.pc.Posting? ==> st.pc.id < st.q.nextId)
  }

  lemma {:induction false} SparedIsPart(rs: seq<Request>, target: int, r: Request)
    requires r in Spared(rs, target)
    ensures r in rs
  {
    if r in Spared(rs[..|rs| - 1], target) { SparedIsPart(rs[..|rs| - 1], target, r); }
  }

  lemma CancelKeepsIdsBelow(st: System, id: int)
    requires IdsBelow(st)
    ensures IdsBelow(DoPostCancel(st, id))
  {
    PostCancelIs(st, id);
    var q := DoPostCancel(st, id).q;
    forall r | r in q.tasks || r in q.deferred ensures Id(r) < q.nextId {
      if r in Spared(st.q.tasks, id) { SparedIsPart(st.q.tasks, id, r); }
      if r in Spared(st.q.deferred, id) { SparedIsPart(st.q.deferred, id, r); }
    }
  }

  lemma HandleKeepsIdsBelow(st: System, slot: nat, ok: bool)
    requires Shape(st) && IdsBelow(st)
    ensures IdsBelow(DoHandle(st, slot, ok))
  {
  }

  lemma TellKeepsIdsBelow(st: System, e: Event)
    requires Shape(st) && IdsBelow(st)
    ensures IdsBelow(DoTell(st, e))
  {
    hide Move;
  }

  lemma StepKeepsIdsBelow(st: System, s: Step)
    requires Shape(st) && IdsBelow(st)
    ensures IdsBelow(Next(st, s))
  {
    hide DoPostCancel, DoHandle, DoTell;
    match s
    case PostCancel(id) => CancelKeepsIdsBelow(st, id);
    case Handle(slot, ok) => HandleKeepsIdsBelow(st, slot, ok);
    case Tell(e) => TellKeepsIdsBelow(st, e);
    case _ =>
  }

  lemma {:induction false} RunKeepsIdsBelow(n: nat, steps: seq<Step>)
    ensures Shape(After(Init(n), steps)) && IdsBelow(After(Init(n), steps))
    decreases |steps|
  {
    if steps != [] {
      var st := After(Init(n), steps[..|steps| - 1]);
      RunKeepsIdsBelow(n, steps[..|steps| - 1]);
      ShapeKept(st, steps[|steps| - 1]);
      StepKeepsIdsBelow(st, steps[|steps| - 1]);
    }
  }

  lemma CounterGrows(st: System, s: Step)
    requires Shape(st)
    ensures st.q.nextId <= Next(st, s).q.nextId
  {
    if s.PostCancel? { PostCancelIs(st, s.id); }
  }

  /** Ids are never given out twice: the next one is used by no task of a client and by no request on its way, also
      not by a cancel or a wake-up, and the counter never goes back. */
  lemma IdsAreFresh(n: nat, steps: seq<Step>, s: Step)
    ensures var st := After(Init(n), steps);
            && st.q.nextId !in st.stage && st.q.nextId <= Next(st, s).q.nextId
            && (forall r :: r in st.q.tasks || r in st.q.deferred || st.pc == Handling(r) ==> Id(r) != st.q.nextId)
            && st.pc != Posting(st.q.nextId)
  {
    hide After;
    RunKeepsIdsBelow(n, steps);
    CounterGrows(After(Init(n), steps), s);
  }
}
