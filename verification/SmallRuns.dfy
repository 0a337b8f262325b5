/** Short runs from start-up that reach what other modules describe: a window that is full while shifting is off, a
    decode that fails for good, and each case that `ServerRuns.Allowed` and draining leave out. */
module SmallRuns {
  import opened Wrappers
  import opened TextStream
  import opened KvCache
  import opened PromptReuse
  import opened Slots
  import opened UpdateSlots
  import opened ServerInvariant
  import opened Budget
  import opened Speculation
  import opened DecodeLoop
  import opened ServerRuns
  import opened Traces
  import opened Progress
  import opened OneSlot

  /** A window of four places, no context shift. */
  const TINY := Settings(4, 4, 4, -1, 100, 0, false, true, false, false, false)
  const PLAIN := Params(true, false, 0, 0, -1, 0, [], 0, 0, [])
  const TASK := Task(0, Completion, [1, 2, 3], PLAIN)
  const LETTER := Sample(4, [65], false, false)

  /** Decoding succeeds at once, and the sampler always says "A". */
  ghost predicate Chatty(o: Oracle) {
    o.decodes(0) == 0 && forall call: nat, i: nat :: o.samples(call, i) == LETTER
  }

  function FreshSlot(): Slot { Slot(-1, Completion, Idle, PLAIN, [], 0, 0, 0, -1, -1, [], [], 0, false, START) }

  function Launched(cfg: Config, task: Task): Slot { Launch(cfg, FreshSlot(), task, true) }

  /** A task that fits one batch, and that no stop word, limit of indentation, or budget of one token ends. */
  predicate Short(cfg: Config, task: Task) {
    && task.kind == Completion && 0 < |task.prompt| < cfg.nCtx && |task.prompt| <= cfg.nBatch && cfg.nCacheReuse == 0
    && task.params.stops == [] && task.params.nIndent == 0 && !task.params.stream && task.params.lora == []
    && cfg.nPredict == -1
    && (if task.params.nPredict == -1 then cfg.nCtxTrain - |task.prompt| else task.params.nPredict) > 1
  }

  /** The slot when its prompt is opened. */
  function Open(cfg: Config, task: Task): Slot { OpenedSlot(cfg, Launched(cfg, task)) }

  lemma OpenIs(cfg: Config, task: Task)
    requires Short(cfg, task)
    ensures var s, t := Launched(cfg, task), Open(cfg, task);
            && s.phase == Started && s.kind == Completion && s.cache == [] && s.prompt == task.prompt && s.nPast == 0
            && TakesPrompt(cfg, t) && t.prompt == task.prompt && t.nPast == 0 && t.cache == [] && t.text == START
            && t.idTask == task.id && t.lora == [] && t.iBatch == -1
            && t.params == task.params.(nKeep := ClampKeep(task.params.nKeep, |task.prompt|, cfg.nCtx))
  {
  }

  /** The slot when its prompt is in the batch. */
  function Loaded(cfg: Config, task: Task): Slot {
    var t := Open(cfg, task);
    t.(phase := DonePrompt, nDecoded := 0, nPast := |t.prompt|, cache := if t.params.cachePrompt then t.prompt else [],
      iBatch := |t.prompt| - 1)
  }

  function LoadedWork(cfg: Config, task: Task): (w: Work)
    requires Short(cfg, task)
    ensures Shaped(w) && |w.slots| == 1
  {
    OpenIs(cfg, task);
    PromptDone(RowWork(Open(cfg, task), map[], |task.prompt|), 0)
  }

  lemma LoadedWorkIs(cfg: Config, task: Task, w: Work)
    requires Short(cfg, task) && w == LoadedWork(cfg, task)
    ensures Open(cfg, task).nPast == 0 && |task.prompt| == |Open(cfg, task).prompt|
    ensures w.slots == [Loaded(cfg, task)] && w.kv == [map[]] && w.batch == Row(Open(cfg, task), |task.prompt|)
    ensures w.batched == Some(0) && w.events == [] && |w.batch| == |task.prompt|
  {
    var t, n := Open(cfg, task), |task.prompt|;
    OpenIs(cfg, task);
    hide Open;
    assert t.prompt[0..n] == t.prompt && [] + t.prompt == t.prompt;
  }

  lemma LoadedWorkHas(cfg: Config, task: Task, w: Work)
    requires Short(cfg, task) && w == LoadedWork(cfg, task)
    ensures w.slots == [Loaded(cfg, task)] && w.kv == [map[]] && w.batch != [] && |w.batch| == |task.prompt|
  {
    LoadedWorkIs(cfg, task, w);
  }

  lemma BuildsShort(cfg: Config, o: Oracle, task: Task, sv: Server)
    requires Short(cfg, task) && Valid(sv) && sv.slots == [Launched(cfg, task)] && sv.kv == [map[]]
    ensures BuiltFrom(cfg, o, Begun(sv)) == LoadedWork(cfg, task)
  {
    var s, t := Launched(cfg, task), Open(cfg, task);
    OpenIs(cfg, task);
    hide Launched, OpenedSlot, BuiltFrom, PromptTurn, IngestTurn, PromptDone;
    assert TrimmedSlot(t, o.removes(0)) == t && TrimmedKv(t, map[], o.removes(0)) == map[];
    hide TrimmedSlot, TrimmedKv, RowWork;
    BuildsOne(cfg, o, sv, s);
    OpensOne(cfg, o, sv, s);
    Ingests(cfg, o, t, map[], |task.prompt|);
  }

  // ------------------------------------------------------------------ the first token

  /** The slot after its first token. */
  function Talking(cfg: Config, task: Task): Slot { ProcessToken(cfg, Counted(Loaded(cfg, task)), LETTER).slot }

  lemma LetterGoesOn(t: TextState, p: Params)
    requires p.stops == [] && p.nIndent == 0
    ensures var u := TokenText(t, p, LETTER); u.hasNext && u.gen == t.gen + [65]
  {
    assert StopWords.EarliestOf([], [], 0, true, 0).None?;
  }

  lemma TalksOn(cfg: Config, task: Task)
    requires Short(cfg, task)
    ensures var s := Talking(cfg, task);
            && s.text.hasNext && s.text.gen == [65] && s.phase == Generating && s.nDecoded == 1 && s.iBatch == -1
            && SameRun(Loaded(cfg, task), s) && s.sampled == 4 && (Finite(cfg, s) ==> s.nRemaining == Bound(cfg, s) - 1)
  {
    var s := Counted(Loaded(cfg, task));
    OpenIs(cfg, task);
    hide Open;
    LetterGoesOn(s.text, s.params);
    assert s.text.gen == [] && [] + [65] == [65];
    hide TokenText;
    UnremarkableStopsExactly(cfg, s, LETTER);
    ProcessTokenStops(cfg, s, LETTER);
  }

  /** What the slot has from its task. */
  lemma TalkIs(cfg: Config, task: Task)
    requires Short(cfg, task)
    ensures var s := Talking(cfg, task);
            && s.idTask == task.id && s.nPast == |task.prompt| && s.lora == [] && s.kind == Completion
            && s.cache == (if task.params.cachePrompt then task.prompt else [])
            && s.params == task.params.(nKeep := ClampKeep(task.params.nKeep, |task.prompt|, cfg.nCtx))
  {
    TalksOn(cfg, task);
    OpenIs(cfg, task);
    hide Talking, Open;
  }

  /** The cells hold the prompt of the task. */
  ghost predicate HoldsPrompt(task: Task, kv: Kv) {
    Mirrors(kv, task.prompt, []) && forall p :: p in kv <==> 0 <= p < |task.prompt|
  }

  lemma DecodesPrompt(cfg: Config, task: Task, w: Work, t: Slot)
    requires Short(cfg, task) && w == LoadedWork(cfg, task) && t == Open(cfg, task)
    ensures |w.batch| == |task.prompt|
    ensures var d := ViewDecoded(w, 0, |task.prompt|);
            && d.slots == [Loaded(cfg, task)] && |d.kv| == 1 && HoldsPrompt(task, d.kv[0]) && InForce(d) == []
  {
    LoadedWorkIs(cfg, task, w);
    OpenIs(cfg, task);
    hide Open, LoadedWork;
    RowCells(t, map[], |task.prompt|, 0, []);
  }

  /** The work when the prompt is decoded and the first token sampled. */
  ghost predicate FirstDrawn(cfg: Config, task: Task, h: Work) {
    Shaped(h) && h.slots == [Talking(cfg, task)] && HoldsPrompt(task, h.kv[0]) && InForce(h) == []
  }

  lemma DrawsFirst(cfg: Config, o: Oracle, task: Task, w: Work)
    requires Chatty(o) && Short(cfg, task) && w == LoadedWork(cfg, task)
    ensures |w.batch| == |task.prompt|
    ensures FirstDrawn(cfg, task, HandleFrom(cfg, o, 0, 0, |task.prompt|, ViewDecoded(w, 0, |task.prompt|), 0))
  {
    var n := |task.prompt|;
    DecodesPrompt(cfg, task, w, Open(cfg, task));
    TalksOn(cfg, task);
    OpenIs(cfg, task);
    hide ViewDecoded, LoadedWork, ProcessToken, HandleStep, Open, HoldsPrompt;
    var d := ViewDecoded(w, 0, n);
    HandleStepShape(cfg, o, 0, 0, n, d, 0);
    assert InView(d.slots[0], 0, n) && d.slots[0].phase == DonePrompt && !NonCausal(d.slots[0]);
    var v := HandleStep(cfg, o, 0, 0, n, d, 0);
    assert v.slots == [Talking(cfg, task)] && v.slots[0].lora == d.slots[0].lora;
    assert HandleFrom(cfg, o, 0, 0, n, d, 0) == HandleFrom(cfg, o, 0, 0, n, v, 1) == v;
  }

  lemma FirstCallIs(cfg: Config, o: Oracle, task: Task, sv: Server, w: Work)
    requires Chatty(o) && Short(cfg, task) && Valid(sv) && sv.slots == [Launched(cfg, task)] && sv.kv == [map[]]
    requires w == LoadedWork(cfg, task)
    ensures |w.batch| == |task.prompt|
    ensures var v := ViewDone(cfg, o, 0, 0, |task.prompt|, w);
            Update(cfg, sv, o) == Updated(Server(v.slots, v.kv, sv.cleanKv), v.events, false)
  {
    LoadedWorkHas(cfg, task, w);
    BuildsShort(cfg, o, task, sv);
    assert Processing(sv.slots[0]);
    hide BuiltFrom, LoadedWork, ViewDone, DecodeFrom, Update;
    OneViewDecodes(cfg, o, w);
    BusyCallIs(cfg, o, sv, w, DecodeFrom(cfg, o, Loop(w, 0, cfg.nBatch, 0)));
  }

  /** The call that takes in the prompt samples a first token. */
  lemma FirstCall(cfg: Config, o: Oracle, task: Task, sv: Server)
    requires Chatty(o) && Short(cfg, task) && Valid(sv) && sv.slots == [Launched(cfg, task)] && sv.kv == [map[]]
    requires !cfg.hasDraft
    ensures var r := Update(cfg, sv, o);
            && !r.fatal && r.server.slots == [Talking(cfg, task)] && HoldsPrompt(task, r.server.kv[0])
            && r.server.cleanKv == sv.cleanKv
  {
    var w := LoadedWork(cfg, task);
    hide Update, HandleFrom, LoadedWork, ViewDecoded, Launched, Talking, HoldsPrompt, InForce;
    FirstCallIs(cfg, o, task, sv, w);
    DrawsFirst(cfg, o, task, w);
  }

  function Start(o: Oracle, task: Task): seq<Command> { [CallUpdate(o), LaunchTask(0, task, true)] }

  /** After the idle call that clears the cells, and the launch. */
  function StartedServer(cfg: Config, task: Task): Server { Server([Launched(cfg, task)], [map[]], false) }

  lemma Starts(cfg: Config, o: Oracle, task: Task)
    ensures AfterAll(cfg, Fresh(1, PLAIN), Start(o, task)) == StartedServer(cfg, task)
    ensures TaskOk(cfg, task) && Verifies(cfg, o) ==> AllAllowed(cfg, Fresh(1, PLAIN), Start(o, task))
  {
    var a, launch := Exec(cfg, Fresh(1, PLAIN), CallUpdate(o)), LaunchTask(0, task, true);
    assert Fresh(1, PLAIN).slots == [FreshSlot()] && Emptied([map[]]) == [map[]];
    assert a == Server([FreshSlot()], [map[]], false);
    assert [FreshSlot()][0 := Launched(cfg, task)] == [Launched(cfg, task)];
    assert Start(o, task)[1..] == [launch] && [launch][1..] == [];
    assert AfterAll(cfg, a, [launch]) == Exec(cfg, a, launch);
  }

  // ------------------------------------------------------------------ a full window

  lemma NothingToBuild(cfg: Config, o: Oracle, w: Work)
    requires Shaped(w) && |w.slots| == 1 && !Processing(w.slots[0]) && w.batch == []
    ensures Prompts(cfg, o, SampledFrom(w, 0)) == w
  {
    assert SampledStep(w, 0) == w && SampledFrom(w, 1) == w && PromptTurn(cfg, o, w, 0) == Turn(w, true);
    hide PromptTurn, SampledStep;
    var next, full := PromptsUnfold(cfg, o, w, 0);
    PromptsStop(cfg, o, w);
  }

  lemma WindowIsFull(w: Work)
    requires Shaped(w) && w.slots == [Talking(TINY, TASK)] && w.events == []
    ensures var r := ShiftFrom(TINY, w, 0);
            r.slots == [Release(Talking(TINY, TASK))] && r.events == [Released(0), Sent(0, Error(ShiftDisabled))]
  {
    TalksOn(TINY, TASK);
    TalkIs(TINY, TASK);
    hide Talking;
    var s, v := Talking(TINY, TASK), ShiftStep(TINY, w, 0);
    assert v.slots == [Release(s)] && v.events == [Released(0), Sent(0, Error(ShiftDisabled))];
    assert ShiftFrom(TINY, w, 0) == ShiftFrom(TINY, v, 1) == v;
  }

  /** The call after the first finds the window full. */
  lemma SecondCall(o: Oracle, sv: Server)
    requires Valid(sv) && sv.slots == [Talking(TINY, TASK)]
    ensures Update(TINY, sv, o).events == [Released(0), Sent(0, Error(ShiftDisabled))]
  {
    TalksOn(TINY, TASK);
    assert Processing(sv.slots[0]);
    WindowIsFull(Begun(sv));
    var w := ShiftFrom(TINY, Begun(sv), 0).(batch := [], logits := [], batched := None);
    NothingToBuild(TINY, o, w);
    hide ShiftFrom, Prompts, SampledFrom, Talking, DecodeFrom, Update;
    assert BuiltFrom(TINY, o, Begun(sv)) == w;
    NothingToDo(TINY, o, w);
    BusyCallIs(TINY, o, sv, w, Outcome(w, false, 0));
  }

  /** The check that the source calls redundant is reached: a window of four places, a prompt of three tokens, and two
      calls. */
  lemma FullWindowIsReached(o: Oracle)
    requires Chatty(o)
    ensures var sv := Exec(TINY, AfterAll(TINY, Fresh(1, PLAIN), Start(o, TASK)), CallUpdate(o));
            Update(TINY, sv, o).events == [Released(0), Sent(0, Error(ShiftDisabled))]
  {
    hide Update, AfterAll, Fresh, Start, Launched, Talking, AllAllowed;
    Starts(TINY, o, TASK);
    FirstCall(TINY, o, TASK, StartedServer(TINY, TASK));
    SecondCall(o, Update(TINY, StartedServer(TINY, TASK), o).server);
  }

  // ------------------------------------------------------------------ a decode that fails for good

  /** A decode that fails at once leaves a slot with three cached tokens and no cells. */
  lemma FatalDecodeIsReached(o: Oracle)
    requires o.decodes(0) == -1
    ensures var r := Update(TINY, AfterAll(TINY, Fresh(1, PLAIN), Start(o, TASK)), o);
            r.fatal && r.server.slots[0].cache == [1, 2, 3] && r.server.kv[0] == map[]
  {
    var sv, w := StartedServer(TINY, TASK), LoadedWork(TINY, TASK);
    hide BuiltFrom, AfterAll, LoadedWork, Fresh, Start, Launched, Open, DecodeFrom, GiveUpFrom, Update;
    OpenIs(TINY, TASK);
    assert Processing(sv.slots[0]) && Loaded(TINY, TASK).cache == [1, 2, 3];
    hide Loaded;
    Starts(TINY, o, TASK);
    BuildsShort(TINY, o, TASK, sv);
    LoadedWorkHas(TINY, TASK, w);
    FatalCallIs(TINY, o, sv, w);
  }

  // ------------------------------------------------------------------ a task before the first clear

  /** A task that runs before the first idle call: that call then clears its cells and leaves its cached tokens. */
  lemma LateClearIsReached(o: Oracle)
    requires Chatty(o)
    ensures var cs := [LaunchTask(0, TASK, true), CallUpdate(o), CancelTask(0), CallUpdate(o)];
            var sv := AfterAll(TINY, Fresh(1, PLAIN), cs);
            sv.slots[0].cache == [1, 2, 3] && sv.kv[0] == map[]
  {
    var a := Server([Launched(TINY, TASK)], [map[]], true);
    assert Fresh(1, PLAIN).slots == [FreshSlot()];
    assert Exec(TINY, Fresh(1, PLAIN), LaunchTask(0, TASK, true)) == a;
    hide Talking, Launched, Update, AfterAll, HoldsPrompt, Fresh;
    FirstCall(TINY, o, TASK, a);
    TalkIs(TINY, TASK);
    CancelAndClear(o, Update(TINY, a, o).server, Talking(TINY, TASK));
    AfterFour(TINY, Fresh(1, PLAIN), LaunchTask(0, TASK, true), CallUpdate(o), CancelTask(0), CallUpdate(o));
  }

  lemma CancelAndClear(o: Oracle, sv: Server, s: Slot)
    requires Valid(sv) && sv.slots == [s] && s.idTask == 0 && s.cache == [1, 2, 3] && sv.cleanKv
    ensures var r := Exec(TINY, Exec(TINY, sv, CancelTask(0)), CallUpdate(o));
            r.slots[0].cache == [1, 2, 3] && r.kv[0] == map[]
  {
    var c := Exec(TINY, sv, CancelTask(0));
    assert c.slots == [Release(s)] && AllIdle(c.slots) && c.cleanKv;
  }

  lemma AfterFour(cfg: Config, sv: Server, a: Command, b: Command, c: Command, d: Command)
    requires Valid(sv)
    ensures AfterAll(cfg, sv, [a, b, c, d]) == Exec(cfg, Exec(cfg, Exec(cfg, Exec(cfg, sv, a), b), c), d)
  {
    hide Exec;
    assert [a, b, c, d][1..] == [b, c, d] && [b, c, d][1..] == [c, d] && [c, d][1..] == [d] && [d][1..] == [];
    var v := Exec(cfg, sv, a);
    var w := Exec(cfg, v, b);
    var x := Exec(cfg, w, c);
    assert AfterAll(cfg, sv, [a, b, c, d]) == AfterAll(cfg, v, [b, c, d]);
    assert AfterAll(cfg, v, [b, c, d]) == AfterAll(cfg, w, [c, d]);
    assert AfterAll(cfg, w, [c, d]) == AfterAll(cfg, x, [d]);
    assert AfterAll(cfg, x, [d]) == Exec(cfg, x, d);
  }

  // ------------------------------------------------------------------ a discard that is too large

  const WIDE := Settings(8, 8, 8, -1, 100, 0, true, true, false, false, false)
  const LONG := Task(0, Completion, [1, 2, 3, 4, 5, 6, 7], PLAIN.(nKeep := 3, nDiscard := 6))

  /** A full window of which three tokens are to be kept and six to be discarded: the next call's shift leaves cells
      that are no cached tokens. */
  lemma LongDiscardIsReached(o: Oracle)
    requires Chatty(o)
    ensures var sv := Exec(WIDE, AfterAll(WIDE, Fresh(1, PLAIN), Start(o, LONG)), CallUpdate(o));
            && NeedsShift(WIDE, sv.slots[0]) && !ShiftFits(WIDE, sv.slots[0], sv.kv[0])
            && ShiftFrom(WIDE, Begun(sv), 0).slots[0].cache == [1] && 2 in ShiftFrom(WIDE, Begun(sv), 0).kv[0]
  {
    hide Talking, Update, AfterAll, HoldsPrompt, Launched, Fresh, Start;
    Starts(WIDE, o, LONG);
    FirstCall(WIDE, o, LONG, StartedServer(WIDE, LONG));
    LongTalk();
    var sv, s := Update(WIDE, StartedServer(WIDE, LONG), o).server, Talking(WIDE, LONG);
    PromptIsHeld(LONG, sv.kv[0], 2);
    ShiftNeedsBoundedDiscard(WIDE, s, sv.kv[0]);
    LongShift(sv, s);
  }

  lemma PromptIsHeld(task: Task, kv: Kv, p: nat)
    requires HoldsPrompt(task, kv) && p < |task.prompt|
    ensures Mirrors(kv, task.prompt, []) && p in kv
  {
  }

  lemma LongTalk()
    ensures var s := Talking(WIDE, LONG);
            && s.cache == LONG.prompt && s.nPast == 7 && s.phase == Generating && s.lora == []
            && s.params.nKeep == 3 && s.params.nDiscard == 6 && s.params.cachePrompt && NeedsShift(WIDE, s)
  {
    TalksOn(WIDE, LONG);
    TalkIs(WIDE, LONG);
    hide Talking;
  }

  lemma LongShift(sv: Server, s: Slot)
    requires Valid(sv) && sv.slots == [s] && s.cache == [1, 2, 3, 4, 5, 6, 7] && s.nPast == 7 && s.phase == Generating
    requires s.params.nKeep == 3 && s.params.nDiscard == 6 && s.params.cachePrompt && 2 in sv.kv[0]
    ensures ShiftFrom(WIDE, Begun(sv), 0).slots[0].cache == [1] && 2 in ShiftFrom(WIDE, Begun(sv), 0).kv[0]
  {
    var w := Begun(sv);
    var v := ShiftStep(WIDE, w, 0);
    assert ShiftFrom(WIDE, w, 0) == ShiftFrom(WIDE, v, 1) == v;
    SeqAddAt(SeqRm(sv.kv[0], 3, 9), 9, 7, -6, 2);
  }

  // ------------------------------------------------------------------ a prompt that spans two batches

  /** Two entries to a batch. */
  const NARROW := Settings(4, 2, 2, -1, 100, 0, false, true, false, false, false)
  const UNCACHED := Task(0, Completion, [1, 2, 3], PLAIN.(cachePrompt := false))

  /** The slot when two tokens of the prompt are in. */
  function Halfway(task: Task): Slot
    requires |task.prompt| == 3
  {
    FedTo(OpenedSlot(NARROW, Launched(NARROW, task)), 2)
  }

  lemma NothingIsDrawn(cfg: Config, o: Oracle, w: Work, n: nat)
    requires Shaped(w) && |w.slots| == 1 && w.slots[0].phase == ProcessingPrompt
    ensures HandleFrom(cfg, o, 0, 0, n, w, 0) == w
  {
    QuietStep(cfg, o, 0, 0, n, w, 0);
    assert HandleFrom(cfg, o, 0, 0, n, w, 0) == HandleFrom(cfg, o, 0, 0, n, w, 1);
  }

  lemma OpensHalf(task: Task, t: Slot)
    requires (task == TASK || task == UNCACHED) && t == OpenedSlot(NARROW, Launched(NARROW, task))
    ensures t.prompt == [1, 2, 3] && t.nPast == 0 && t.cache == [] && TakesPrompt(NARROW, t)
            && t.params.cachePrompt == task.params.cachePrompt
    ensures var s := Launched(NARROW, task);
            && s.phase == Started && s.kind == Completion && s.cache == [] && s.prompt == [1, 2, 3] && s.nPast == 0
  {
  }

  lemma BuildsHalf(o: Oracle, task: Task, t: Slot)
    requires (task == TASK || task == UNCACHED) && t == OpenedSlot(NARROW, Launched(NARROW, task))
    ensures BuiltFrom(NARROW, o, Begun(StartedServer(NARROW, task))) == RowWork(t, map[], 2)
  {
    var sv, s := StartedServer(NARROW, task), Launched(NARROW, task);
    OpensHalf(task, t);
    hide BuiltFrom, PromptTurn, IngestTurn, Launched, OpenedSlot;
    assert TrimmedSlot(t, o.removes(0)) == t && TrimmedKv(t, map[], o.removes(0)) == map[];
    assert PromptDone(RowWork(t, map[], 2), 0) == RowWork(t, map[], 2);
    hide RowWork, PromptDone;
    BuildsOne(NARROW, o, sv, s);
    OpensOne(NARROW, o, sv, s);
    Ingests(NARROW, o, t, map[], 2);
  }

  lemma DecodesHalf(o: Oracle, t: Slot)
    requires o.decodes(0) == 0 && TakesPrompt(NARROW, t) && t.prompt == [1, 2, 3] && t.nPast == 0
    ensures var w := RowWork(t, map[], 2);
            var r := DecodeFrom(NARROW, o, Loop(w, 0, 2, 0));
            && !r.fatal && r.work.slots == [FedTo(t, 2)] && |r.work.kv| == 1
            && (forall p :: p in r.work.kv[0] <==> 0 <= p < 2)
            && r.work.kv[0][0].tok == 1 && r.work.kv[0][1].tok == 2
  {
    var w := RowWork(t, map[], 2);
    OneViewDecodes(NARROW, o, w);
    NothingIsDrawn(NARROW, o, ViewDecoded(w, 0, 2), 2);
    RowCells(t, map[], 2, 0, InForce(w));
  }

  lemma FirstHalf(o: Oracle, task: Task)
    requires (task == TASK || task == UNCACHED) && o.decodes(0) == 0
    ensures var r := Update(NARROW, StartedServer(NARROW, task), o);
            && !r.fatal && r.server.slots == [Halfway(task)] && |r.server.kv| == 1
            && (forall p :: p in r.server.kv[0] <==> 0 <= p < 2)
            && r.server.kv[0][0].tok == 1 && r.server.kv[0][1].tok == 2
  {
    var sv, t := StartedServer(NARROW, task), OpenedSlot(NARROW, Launched(NARROW, task));
    OpensHalf(task, t);
    assert Processing(sv.slots[0]);
    assert Halfway(task) == FedTo(t, 2);
    hide BuiltFrom, OpenedSlot, Launched, DecodeFrom, RowWork, Update, Halfway, FedTo;
    BuildsHalf(o, task, t);
    DecodesHalf(o, t);
    BusyCallIs(NARROW, o, sv, RowWork(t, map[], 2), DecodeFrom(NARROW, o, Loop(RowWork(t, map[], 2), 0, 2, 0)));
  }

  lemma BuildsRest(o: Oracle, sv: Server, u: Slot, v: Slot)
    requires o.removes(0) && Valid(sv) && sv.slots == [u] && TakesPrompt(NARROW, u)
    requires u.prompt == [1, 2, 3] && u.nPast == 2 && u.cache == [] && v == u.(cache := [0, 0])
    ensures BuiltFrom(NARROW, o, Begun(sv)) == PromptDone(RowWork(v, SeqRm(sv.kv[0], 2, -1), 3), 0)
  {
    assert Resized([], 2) == [0, 0];
    assert TrimmedSlot(u, true) == v && TrimmedKv(u, sv.kv[0], true) == SeqRm(sv.kv[0], 2, -1);
    BuildsOne(NARROW, o, sv, u);
    ResumesOne(NARROW, o, sv, u);
    assert sv.kv == [sv.kv[0]];
    hide BuiltFrom, PromptTurn, IngestTurn, RowWork, PromptDone;
    Ingests(NARROW, o, u, sv.kv[0], 3);
  }

  lemma DrawsOnce(o: Oracle, w: Work)
    requires Shaped(w) && |w.slots| == 1 && w.slots[0].phase == DonePrompt && !NonCausal(w.slots[0])
    requires w.slots[0].iBatch == 0
    ensures var h := HandleFrom(NARROW, o, 0, 0, 1, w, 0); h.kv == w.kv && h.slots[0].cache == w.slots[0].cache
  {
    HandleStepShape(NARROW, o, 0, 0, 1, w, 0);
    ProcessTokenStops(NARROW, Counted(w.slots[0]), o.samples(0, 0));
    var v := HandleStep(NARROW, o, 0, 0, 1, w, 0);
    hide HandleStep;
    assert HandleFrom(NARROW, o, 0, 0, 1, w, 0) == HandleFrom(NARROW, o, 0, 0, 1, v, 1) == v;
  }

  lemma SecondHalf(o: Oracle, sv: Server, u: Slot)
    requires o.removes(0) && o.decodes(0) == 0 && Valid(sv) && sv.slots == [u] && TakesPrompt(NARROW, u)
    requires u.prompt == [1, 2, 3] && u.nPast == 2 && u.cache == [] && !u.params.cachePrompt
    requires 0 in sv.kv[0] && sv.kv[0][0].tok == 1
    ensures var r := Update(NARROW, sv, o).server; r.slots[0].cache == [0, 0] && 0 in r.kv[0] && r.kv[0][0].tok == 1
  {
    var v, kv := u.(cache := [0, 0]), SeqRm(sv.kv[0], 2, -1);
    var w := PromptDone(RowWork(v, kv, 3), 0);
    BuildsRest(o, sv, u, v);
    assert Processing(sv.slots[0]);
    assert w.slots[0].phase == DonePrompt && w.slots[0].cache == [0, 0] && w.kv == [kv] && w.batch == Row(v, 3);
    hide BuiltFrom, PromptDone, HandleFrom, DecodeFrom, Update;
    OneViewDecodes(NARROW, o, w);
    BusyCallIs(NARROW, o, sv, w, DecodeFrom(NARROW, o, Loop(w, 0, 2, 0)));
    RowCells(v, kv, 3, 0, InForce(w));
    DrawsOnce(o, ViewDecoded(w, 0, 1));
  }

  /** A prompt that is not cached and spans two batches: the cached tokens are zeros, and the cells are not. */
  lemma UncachedPromptIsReached(o: Oracle)
    requires o.removes(0) && o.decodes(0) == 0
    ensures var a := AfterAll(NARROW, Fresh(1, PLAIN), Start(o, UNCACHED));
            var sv := Exec(NARROW, Exec(NARROW, a, CallUpdate(o)), CallUpdate(o));
            sv.slots[0].cache == [0, 0] && 0 in sv.kv[0] && sv.kv[0][0].tok == 1
  {
    var u, t := Halfway(UNCACHED), OpenedSlot(NARROW, Launched(NARROW, UNCACHED));
    OpensHalf(UNCACHED, t);
    assert TakesPrompt(NARROW, u) && u.prompt == [1, 2, 3] && u.nPast == 2 && u.cache == []
      && !u.params.cachePrompt by {
      hide OpenedSlot, Launched;
      assert u == FedTo(t, 2);
    }
    hide Update, AfterAll, Halfway, Fresh, StartedServer, Start, OpenedSlot, Launched;
    Starts(NARROW, o, UNCACHED);
    FirstHalf(o, UNCACHED);
    SecondHalf(o, Update(NARROW, StartedServer(NARROW, UNCACHED), o).server, u);
  }

  lemma HalfwayIsStalled(o: Oracle)
    requires o.decodes(0) == 0
    ensures var sv := Update(NARROW, StartedServer(NARROW, TASK), o).server;
            Stalled(NARROW, sv.slots, 0, [1, 2, 3])
  {
    var t := OpenedSlot(NARROW, Launched(NARROW, TASK));
    FirstHalf(o, TASK);
    OpensHalf(TASK, t);
    hide OpenedSlot, Launched, Update;
    assert Halfway(TASK) == FedTo(t, 2);
  }

  lemma CallIs(cfg: Config, sv: Server, o: Oracle)
    requires Valid(sv)
    ensures Exec(cfg, sv, CallUpdate(o)) == Update(cfg, sv, o).server
  {
  }

  /** Where partial removals fail, a prompt longer than a batch is never taken in, whatever calls follow the first. */
  lemma {:induction false} StallIsReached(o: Oracle, os: seq<Oracle>)
    requires o.decodes(0) == 0 && forall k :: 0 <= k < |os| ==> !os[k].removes(0)
    requires NoneFatal(NARROW, Exec(NARROW, AfterAll(NARROW, Fresh(1, PLAIN), Start(o, TASK)), CallUpdate(o)), os)
    ensures var sv := Exec(NARROW, AfterAll(NARROW, Fresh(1, PLAIN), Start(o, TASK)), CallUpdate(o));
            Stalled(NARROW, AfterCalls(NARROW, sv, os).slots, 0, [1, 2, 3])
  {
    hide Update, AfterAll, AfterCalls, Stalled, NoneFatal, Fresh, Start, StartedServer, AllAllowed, Exec;
    Starts(NARROW, o, TASK);
    CallIs(NARROW, StartedServer(NARROW, TASK), o);
    HalfwayIsStalled(o);
    FailingRemovalStallsForEver(NARROW, Update(NARROW, StartedServer(NARROW, TASK), o).server, os, 0, [1, 2, 3]);
  }

  // ------------------------------------------------------------------ an idle slot that is told about a failure

  lemma StartsTwo(o: Oracle)
    ensures AfterAll(TINY, Fresh(2, PLAIN), Start(o, TASK))
            == Server([Launched(TINY, TASK), FreshSlot()], [map[], map[]], false)
  {
    var a, launch := Exec(TINY, Fresh(2, PLAIN), CallUpdate(o)), LaunchTask(0, TASK, true);
    assert Fresh(2, PLAIN).slots == [FreshSlot(), FreshSlot()] && Emptied([map[], map[]]) == [map[], map[]];
    assert a == Server([FreshSlot(), FreshSlot()], [map[], map[]], false);
    assert a.slots[0 := Launched(TINY, TASK)] == [Launched(TINY, TASK), FreshSlot()];
    assert Start(o, TASK)[1..] == [launch] && [launch][1..] == [];
    assert AfterAll(TINY, a, [launch]) == Exec(TINY, a, launch);
  }

  lemma NothingBeforePrompts(cfg: Config, w: Work)
    requires Shaped(w) && |w.slots| == 2 && w.slots[1] == FreshSlot() && w.slots[0].phase == Started
    requires w.slots[0].nPast == 0
    ensures ShiftFrom(cfg, w, 0) == w && SampledFrom(w, 0) == w
  {
    assert ShiftStep(cfg, w, 0) == w && ShiftStep(cfg, w, 1) == w && ShiftFrom(cfg, w, 2) == w;
    assert ShiftFrom(cfg, w, 1) == w;
    assert SampledStep(w, 0) == w && SampledStep(w, 1) == w && SampledFrom(w, 2) == w;
    assert SampledFrom(w, 1) == w;
  }

  lemma OpensTwo(o: Oracle, w: Work, t: Slot)
    requires w == Work([Launched(TINY, TASK), FreshSlot()], [map[], map[]], [], [], None, [])
    requires t == OpenedSlot(TINY, Launched(TINY, TASK))
    ensures var r := PromptTurn(TINY, o, w, 0).work; r.batch != [] && |r.slots| == 2 && r.slots[1] == FreshSlot()
  {
    var s, v := Launched(TINY, TASK), Work([t, FreshSlot()], [map[], map[]], [], [], Some(0), []);
    assert OpenPrompt(TINY, s, map[]) == Opened(t, map[]) && TakesPrompt(TINY, t) && s.phase == Started;
    assert Put(Joined(w, 0), 0, t).(kv := w.kv[0 := map[]]) == v;
    hide IngestTurn, OpenPrompt, OpenedSlot, Launched, TakesPrompt;
    FillsBatch(TINY, o, v);
  }

  lemma BuildsTwo(o: Oracle, sv: Server)
    requires sv == Server([Launched(TINY, TASK), FreshSlot()], [map[], map[]], false)
    ensures var w := BuiltFrom(TINY, o, Begun(sv)); w.batch != [] && |w.slots| == 2 && w.slots[1] == FreshSlot()
  {
    var w := Begun(sv);
    assert w.slots[0].phase == Started && w.slots[0].nPast == 0;
    NothingBeforePrompts(TINY, w);
    OpensTwo(o, w, OpenedSlot(TINY, Launched(TINY, TASK)));
    hide ShiftFrom, SampledFrom, PromptTurn, OpenedSlot, Launched, FreshSlot;
    var a, full := PromptsUnfold(TINY, o, w, 0);
    if !full { IdleStays(o, a); }
  }

  lemma IdleStays(o: Oracle, w: Work)
    requires Shaped(w) && |w.slots| == 2 && w.slots[1] == FreshSlot()
    ensures PromptsFrom(TINY, o, w, 1) == w
  {
    assert PromptTurn(TINY, o, w, 1) == Turn(w, true);
    hide PromptTurn;
    var a, full := PromptsUnfold(TINY, o, w, 1);
    PromptsStop(TINY, o, w);
  }

  lemma TellsIdle(w: Work)
    requires Shaped(w) && |w.slots| == 2 && w.slots[1] == FreshSlot()
    ensures var told := GiveUpFrom(w, 0).events; told != [] && told[|told| - 1] == Sent(-1, Error(KvFull))
  {
    var v := GiveUpOne(w, 0);
    assert GiveUpFrom(w, 0) == GiveUpFrom(v, 1) == GiveUpFrom(GiveUpOne(v, 1), 2) == GiveUpOne(v, 1);
  }

  /** Two slots, one of them idle, and a decode that fails at once: the last thing told is an error for the idle slot,
      and what was told is no legal trace. */
  lemma IdleSlotIsTold(o: Oracle)
    requires o.decodes(0) == -1
    ensures var sv := AfterAll(TINY, Fresh(2, PLAIN), Start(o, TASK));
            var told := Update(TINY, sv, o).events;
            && told != [] && told[|told| - 1] == Sent(-1, Error(KvFull))
            && Watched(Steady(sv.slots), told).None?
  {
    var sv := Server([Launched(TINY, TASK), FreshSlot()], [map[], map[]], false);
    StartsTwo(o);
    assert Processing(sv.slots[0]);
    BuildsTwo(o, sv);
    var w := BuiltFrom(TINY, o, Begun(sv));
    BuiltFollows(TINY, o, Begun(sv));
    hide BuiltFrom, AfterAll, Launched, FreshSlot, DecodeFrom, Update, GiveUpFrom;
    FatalCallIs(TINY, o, sv, w);
    TellsIdle(w);
    assert !Processing(w.slots[1]);
    GivingUpIsLegalExactly(w);
    StraysOn(Begun(sv), w, GiveUpFrom(w, 0));
  }

  // ------------------------------------------------------------------ a draft in the first call

  const DRAFTY := Settings(8, 4, 4, -1, 100, 0, true, true, false, true, false)
  const BRIEF := Task(0, Completion, [5], PLAIN.(nPredict := 3, specMax := 4))

  /** The draft is token 7; it is accepted, with one token more. */
  ghost predicate DraftsSeven(o: Oracle) {
    o.drafts(0, 0) == [7] && o.accepts(0, 0) == 1 && forall k: nat :: o.follows(0, 0, k) == LETTER
  }

  function SevenAccepted(): (ids: seq<Sample>)
    ensures |ids| == 2 && Toks(ids) == [7, 4] && ids[0] == LETTER.(tok := 7)
  {
    var ids := [LETTER.(tok := 7), LETTER];
    assert ids[..1][..0] == [] && Toks(ids[..1]) == [7];
    ids
  }

  lemma SpeculatesOnce(o: Oracle, s: Slot)
    requires DraftsSeven(o) && s == Talking(DRAFTY, BRIEF)
    ensures Speculates(DRAFTY, o, 0, s, 0) && Draft(DRAFTY, o, 0, s, 0) == [7]
    ensures AcceptedIds(o, 0, 0, [7]) == SevenAccepted()
    ensures s.cache == [5] && s.nPast == 1 && s.nDecoded == 1 && Bound(DRAFTY, s) == 3
  {
    TalksOn(DRAFTY, BRIEF);
    TalkIs(DRAFTY, BRIEF);
    hide Talking;
  }

  lemma LimitStops(u: Slot, smp: Sample)
    requires u.nDecoded == 3 && Bound(DRAFTY, u) == 3 && u.nPast < 8 && u.text.gen == [65] && u.params.stops == []
    requires u.params.nIndent == 0 && !u.params.stream && smp == LETTER.(tok := 7) && u.idTask == 0
    ensures var p := ProcessToken(DRAFTY, u, smp);
            && p.out.None? && !p.slot.text.hasNext && FinalReply(p.slot) == Final([65, 65], Limit, 3)
            && SameRun(u, p.slot)
  {
    assert TokenText(u.text, u.params, smp) == TokenText(u.text, u.params, LETTER);
    LetterGoesOn(u.text, u.params);
    assert [65] + [65] == [65, 65];
    hide TokenText;
    UnremarkableStopsExactly(DRAFTY, u, smp);
    ProcessTokenStops(DRAFTY, u, smp);
    hide LimitsChecked, BudgetChecked, TextStream.Accept;
  }

  lemma LimitDropsSecond(u: Slot, w: Work, ids: seq<Sample>)
    requires u.nDecoded == 3 && Bound(DRAFTY, u) == 3 && u.nPast < 8 && u.text.gen == [65] && u.params.stops == []
    requires u.params.nIndent == 0 && !u.params.stream && u.idTask == 0
    requires Shaped(w) && w.slots == [u] && |ids| == 2 && ids[0] == LETTER.(tok := 7)
    ensures var r := EmitFrom(DRAFTY, w, 0, ids, 0);
            && r.kv == w.kv && r.slots[0].cache == u.cache
            && r.events == w.events + [Released(0), Sent(0, Final([65, 65], Limit, 3))]
  {
    LimitStops(u, ids[0]);
    hide ProcessToken;
    assert w.events + [] == w.events;
  }

  lemma DraftSlot(s: Slot, u: Slot)
    requires s == Talking(DRAFTY, BRIEF) && u == Advanced(s, SevenAccepted())
    ensures u.cache == [5, 4, 7] && u.nDecoded == 3 && Bound(DRAFTY, u) == 3 && u.nPast == 3 && u.text.gen == [65]
    ensures u.params.stops == [] && u.params.nIndent == 0 && !u.params.stream && u.idTask == 0
  {
    TalksOn(DRAFTY, BRIEF);
    TalkIs(DRAFTY, BRIEF);
    hide Talking;
    assert Toks(SevenAccepted())[..1] == [7];
  }

  lemma DraftStepIs(o: Oracle, h: Work, s: Slot, u: Slot)
    requires DraftsSeven(o) && FirstDrawn(DRAFTY, BRIEF, h) && s == Talking(DRAFTY, BRIEF)
    requires u == Advanced(s, SevenAccepted())
    ensures var kv := AdvancedKv(s, h.kv[0], [7], SevenAccepted(), InForce(h), o.verifies(0, 0));
            var w := Work([u], h.kv[0 := kv], h.batch, h.logits, h.batched, h.events);
            SpeculateStep(DRAFTY, o, 0, h, 0) == EmitFrom(DRAFTY, w, 0, SevenAccepted(), 0)
  {
    SpeculatesOnce(o, s);
    hide Talking, EmitFrom, SevenAccepted, Speculates, Draft, AcceptedIds, AdvancedKv, InForce;
    assert h.slots[0 := u] == [u];
  }

  lemma UndecodedCells(s: Slot, kv: Kv, effect: Effect)
    requires s == Talking(DRAFTY, BRIEF) && HoldsPrompt(BRIEF, kv)
    ensures forall p :: p in AdvancedKv(s, kv, [7], SevenAccepted(), effect, false) <==> p == 0
  {
    TalkIs(DRAFTY, BRIEF);
    hide Talking, SevenAccepted;
  }

  lemma DraftCall(o: Oracle, h: Work)
    requires DraftsSeven(o) && FirstDrawn(DRAFTY, BRIEF, h)
    ensures var r := SpeculateFrom(DRAFTY, o, 0, h, 0);
            && r.slots[0].cache == [5, 4, 7] && (!o.verifies(0, 0) ==> forall p :: p in r.kv[0] <==> p == 0)
            && r.events == h.events + [Released(0), Sent(0, Final([65, 65], Limit, 3))]
  {
    var s := Talking(DRAFTY, BRIEF);
    var u := Advanced(s, SevenAccepted());
    var kv := AdvancedKv(s, h.kv[0], [7], SevenAccepted(), InForce(h), o.verifies(0, 0));
    var w := Work([u], h.kv[0 := kv], h.batch, h.logits, h.batched, h.events);
    assert SevenAccepted()[0] == LETTER.(tok := 7);
    DraftSlot(s, u);
    DraftStepIs(o, h, s, u);
    hide Talking, SpeculateStep, EmitFrom, SevenAccepted, Advanced, AdvancedKv, InForce, HoldsPrompt;
    LimitDropsSecond(u, w, SevenAccepted());
    if !o.verifies(0, 0) { UndecodedCells(s, h.kv[0], InForce(h)); }
    var v := SpeculateStep(DRAFTY, o, 0, h, 0);
    assert SpeculateFrom(DRAFTY, o, 0, h, 0) == SpeculateFrom(DRAFTY, o, 0, v, 1) == v;
  }

  lemma DraftRun(o: Oracle) returns (h: Work)
    requires Chatty(o) && DraftsSeven(o)
    ensures FirstDrawn(DRAFTY, BRIEF, h)
    ensures var r, v := Update(DRAFTY, AfterAll(DRAFTY, Fresh(1, PLAIN), Start(o, BRIEF)), o),
                        SpeculateFrom(DRAFTY, o, 0, h, 0);
            r == Updated(Server(v.slots, v.kv, false), v.events, false)
  {
    var w := LoadedWork(DRAFTY, BRIEF);
    hide AfterAll, Fresh, Start, Update, HandleFrom, ViewDecoded, LoadedWork, SpeculateFrom, FirstDrawn, Launched;
    Starts(DRAFTY, o, BRIEF);
    FirstCallIs(DRAFTY, o, BRIEF, StartedServer(DRAFTY, BRIEF), w);
    DrawsFirst(DRAFTY, o, BRIEF, w);
    h := HandleFrom(DRAFTY, o, 0, 0, 1, ViewDecoded(w, 0, 1), 0);
  }

  /** The first call samples a token, and a draft of one token is accepted with one more: that uses up a budget of
      three,
      and the task is answered with a count of three tokens and the text of two. */
  lemma AcceptedTokenIsLost(o: Oracle)
    requires Chatty(o) && DraftsSeven(o)
    ensures var told := Update(DRAFTY, AfterAll(DRAFTY, Fresh(1, PLAIN), Start(o, BRIEF)), o).events;
            told != [] && told[|told| - 1] == Sent(0, Final([65, 65], Limit, 3))
  {
    hide Update, AfterAll, Fresh, Start, SpeculateFrom, FirstDrawn;
    var h := DraftRun(o);
    DraftCall(o, h);
  }

  /** If that draft cannot be decoded, three tokens are cached and one cell is filled. */
  lemma UndecodedDraftIsReached(o: Oracle)
    requires Chatty(o) && DraftsSeven(o) && !o.verifies(0, 0)
    ensures var r := Update(DRAFTY, AfterAll(DRAFTY, Fresh(1, PLAIN), Start(o, BRIEF)), o);
            !r.fatal && r.server.slots[0].cache == [5, 4, 7] && forall p :: p in r.server.kv[0] <==> p == 0
  {
    hide Update, AfterAll, Fresh, Start, SpeculateFrom, FirstDrawn;
    var h := DraftRun(o);
    DraftCall(o, h);
  }
}
