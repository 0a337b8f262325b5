/** The steps of `update_slots` cut into the pieces in which the methods of ContextObject.dfy compute them, and what
    the events of a call do to the two queues. */
module ContextSteps {
  import opened Wrappers
  import opened Slots
  import opened UpdateSlots
  import opened TaskQueue
  import opened ResultQueue

  /** What the events of a call do to the two queues: a release takes a deferred task back, a result is delivered. */
  function QueuesAfter(start: (Queues, Box), events: seq<Event>): (Queues, Box) {
    if events == [] then start else
    var (q, b) := QueuesAfter(start, events[..|events| - 1]);
    match events[|events| - 1]
    case Released(_) => (Undeferred(q), b)
    case Sent(t, reply) => (q, SentTo(b, Result(t, reply)))
    case _ => (q, b)
  }

  /** One event more. */
  lemma QueuesAfterOne(start: (Queues, Box), events: seq<Event>, e: Event)
    ensures var (q, b) := QueuesAfter(start, events);
            QueuesAfter(start, events + [e])
            == match e
               case Released(_) => (Undeferred(q), b)
               case Sent(t, reply) => (q, SentTo(b, Result(t, reply)))
               case _ => (q, b)
  {
    assert (events + [e])[..|events|] == events;
  }

  /** Calls of the library leave the two queues alone. */
  predicate Quiet(e: Event) { e.Decoded? || e.Sampled? || e.Read? }

  lemma QuietEvent(start: (Queues, Box), events: seq<Event>, e: Event)
    requires Quiet(e)
    ensures QueuesAfter(start, events + [e]) == QueuesAfter(start, events)
  {
    QueuesAfterOne(start, events, e);
  }

  lemma SampledStepIs(w: Work, i: nat)
    requires Shaped(w) && i < |w.slots| && w.slots[i].phase == Generating && Joins(w, i)
    ensures var s := w.slots[i];
            SampledStep(w, i) == Work(w.slots[i := Grown(s.(iBatch := |w.batch|), s.sampled)], w.kv,
                                      w.batch + [Entry(s.sampled, s.nPast, i)], w.logits + [true],
                                      Joined(w, i).batched, w.events)
  {
  }

  /** It does not matter that the slot is counted before its token is concluded. */
  lemma CountedFirst(cfg: Config, w: Work, i: nat, index: int, smp: Sample)
    requires Shaped(w) && i < |w.slots|
    ensures var t := Counted(w.slots[i]);
            Concluded(Tell(Put(w, i, t), [Sampled(i, index)]), i, ProcessToken(cfg, t, smp)) ==
              DrawToken(cfg, w, i, index, smp)
  {
    var t := Counted(w.slots[i]);
    var p := ProcessToken(cfg, t, smp).slot;
    assert w.slots[i := t][i := p] == w.slots[i := p];
    assert w.slots[i := t][i := Release(p)] == w.slots[i := Release(p)];
  }

  lemma EarlyStepIs(cfg: Config, o: Oracle, call: nat, start: nat, count: nat, w: Work, i: nat)
    requires Shaped(w) && i < |w.slots| && InView(w.slots[i], start, count)
    requires w.slots[i].phase == DonePrompt && NonCausal(w.slots[i])
    ensures var s := w.slots[i];
            var reply := if s.kind == Embedding then Embeddings else Score;
            HandleStep(cfg, o, call, start, count, w, i)
            == Tell(Put(w, i, Release(s).(iBatch := -1)), [Read(i), Sent(s.idTask, reply), Released(i)])
  {
  }

  lemma ViewDoneIs(cfg: Config, o: Oracle, call: nat, start: nat, count: nat, w: Work)
    requires Shaped(w) && start + count <= |w.batch|
    ensures var h := HandleFrom(cfg, o, call, start, count, ViewDecoded(w, start, count), 0);
            ViewDone(cfg, o, call, start, count, w) == if cfg.hasDraft then SpeculateFrom(cfg, o, call, h, 0) else h
  {
  }

  /** Context shifts do not look at the batch, which is cleared only after them. */
  lemma {:induction false} ShiftIgnoresBatch(cfg: Config, w: Work, i: nat, batch: seq<Entry>, logits: seq<bool>)
    requires Shaped(w) && i <= |w.slots| && |batch| == |logits|
    ensures ShiftFrom(cfg, w.(batch := batch, logits := logits), i) ==
            ShiftFrom(cfg, w, i).(batch := batch, logits := logits)
    decreases |w.slots| - i
  {
    if i < |w.slots| { ShiftIgnoresBatch(cfg, ShiftStep(cfg, w, i), i + 1, batch, logits); }
  }

  lemma {:induction false} ShiftLeavesNoBatch(cfg: Config, w: Work, i: nat)
    requires Shaped(w) && i <= |w.slots|
    ensures var r := ShiftFrom(cfg, w, i); r.batch == w.batch && r.logits == w.logits && r.batched == w.batched
    decreases |w.slots| - i
  {
    if i < |w.slots| { ShiftLeavesNoBatch(cfg, ShiftStep(cfg, w, i), i + 1); }
  }

  /** The queues with a wake-up added. */
  function WakePosted(q: Queues): Queues { Posted(q.(nextId := q.nextId + 1), NextResponse(q.nextId), false) }

  /** What becomes of an inference task: it is deferred, or launched on the slot `on`, which may fail. */
  function RunHandled(cfg: Config, slots: seq<Slot>, q: Queues, box: Box, task: Task, pin: int, on: Option<nat>,
                      ok: bool): (r: (seq<Slot>, Queues, Box))
    requires on.Some? ==> on.value < |slots|
  {
    if on.None? then (slots, q.(deferred := q.deferred + [Request.Run(task, pin)]), box)
    else (slots[on.value := Launch(cfg, slots[on.value], task, ok)], q,
          if ok then box else SentTo(box, Result(task.id, Error(BadGrammar))))
  }

  /** What a cancel does: the first slot that runs or last ran the task is released. */
  function CancelHandled(slots: seq<Slot>, q: Queues, target: int): (r: (seq<Slot>, Queues)) {
    var i := SlotOf(slots, target, 0);
    if i == |slots| then (slots, q)
    else (slots[i := Release(slots[i])], if Processing(slots[i]) then Undeferred(q) else q)
  }

  /** One turn of the token loop. */
  function OneMore(cfg: Config, w: Work, i: nat): (r: Work)
    requires Shaped(w) && i < |w.slots| && Feeds(cfg, w, w.slots[i])
    ensures Shaped(r) && |r.slots| == |w.slots| && AddTokens(cfg, w, i) == AddTokens(cfg, r, i)
  {
    var s := w.slots[i];
    PushToken(w, i, s.prompt[s.nPast], s.kind == Embedding && cfg.noPooling)
  }
}
