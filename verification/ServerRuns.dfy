/** Whole runs of the server: tasks are launched and cancelled, slots erased, and `update_slots` called, in any
    order and with any answers of the library. */
module ServerRuns {
  import opened Wrappers
  import opened TextStream
  import opened KvCache
  import opened Slots
  import opened UpdateSlots
  import opened ServerInvariant
  import opened Adapters
  import opened BatchBuilding
  import opened PromptLoop
  import opened Budget
  import opened BuildSteps
  import opened DecodeLoop

  /** The invariant of a run: cached tokens mirror the cells, budgets are kept, generating slots agree on their
      adapters, and until the cells were cleared for the first time nothing was run. */
  ghost predicate RunOk(cfg: Config, sv: Server) {
    && Valid(sv)
    && (forall i :: 0 <= i < |sv.slots| ==> SlotOk(cfg, sv.slots[i], sv.kv[i]) && BudgetOk(cfg, sv.slots[i]))
    && AllMatch(sv.slots)
    && (sv.cleanKv ==> AllIdle(sv.slots) && forall i :: 0 <= i < |sv.slots| ==> sv.slots[i].cache == [])
  }

  // ------------------------------------------------------------------ budgets while the batch is built

  lemma PromptsInBudget(cfg: Config, o: Oracle, w: Work)
    requires PromptsOk(cfg, w, 0) && AllInBudget(cfg, w) && Paced(w)
    ensures AllInBudget(cfg, PromptsFrom(cfg, o, w, 0)) && Paced(PromptsFrom(cfg, o, w, 0))
  {
    var inv := (v: Work, k: nat) => PromptsOk(cfg, v, k) && AllInBudget(cfg, v) && Paced(v);
    forall v: Work, k: nat | inv(v, k) && Shaped(v) && k < |v.slots| ensures inv(PromptTurn(cfg, o, v, k).work, k + 1) {
      PromptTurnKeeps(cfg, o, v, k);
      PromptTurnInBudget(cfg, o, v, k);
      assert HasPrompt(v.slots[k]) ==> Untouched(cfg, v, k);
      PromptTurnPaces(cfg, o, v, k);
    }
    var _ := PromptsKeep(cfg, o, w, 0, PromptsFrom(cfg, o, w, 0), inv);
  }

  lemma PromptTurnInBudget(cfg: Config, o: Oracle, w: Work, i: nat)
    requires i < |w.slots| && PromptsOk(cfg, w, i) && AllInBudget(cfg, w)
    ensures AllInBudget(cfg, PromptTurn(cfg, o, w, i).work)
  {
    assert HasPrompt(w.slots[i]) ==> Untouched(cfg, w, i);
    assert Placed(cfg, w.slots[i], |w.batch|);
    PromptTurnShape(cfg, o, w, i);
    var r := PromptTurn(cfg, o, w, i).work;
    forall k | 0 <= k < |r.slots| ensures BudgetOk(cfg, r.slots[k]) {
      assert BudgetOk(cfg, w.slots[k]);
    }
  }

  /** The work after context shifts and sampled tokens. */
  function Shifted(cfg: Config, sv: Server): (w: Work)
    requires Valid(sv)
    ensures Shaped(w) && |w.slots| == |sv.slots| && w.batch == [] && w.batched == None
  {
    ShiftFrom(cfg, Begun(sv), 0).(batch := [], logits := [], batched := None)
  }

  lemma ShiftedOk(cfg: Config, sv: Server)
    requires RunOk(cfg, sv)
    ensures SampledOk(cfg, Shifted(cfg, sv), 0) && AllEased(cfg, Begun(sv), Shifted(cfg, sv))
    ensures PacedUpTo(Shifted(cfg, sv), 0)
  {
    ShiftFromOk(cfg, Begun(sv), 0);
    ShiftFromEases(cfg, Begun(sv), 0);
    ShiftAgrees(cfg, Begun(sv), 0);
    var w := Shifted(cfg, sv);
    forall k | 0 <= k < |w.slots|
      ensures Untouched(cfg, w, k) && Behind(cfg, w.slots[k], w.kv[k], 0)
    {
      assert SlotOk(cfg, w.slots[k], w.kv[k]);
      UntouchedIsExact(cfg, w, k);
    }
  }

  lemma SampledInBudget(cfg: Config, sv: Server)
    requires RunOk(cfg, sv)
    ensures var v := SampledFrom(Shifted(cfg, sv), 0); SampledOk(cfg, v, |v.slots|) && AllInBudget(cfg, v) && Paced(v)
  {
    var w := Shifted(cfg, sv);
    ShiftedOk(cfg, sv);
    SampledFromOk(cfg, w, 0);
    SampledFromEases(cfg, w, 0);
    SampledPaces(w, 0);
    var v := SampledFrom(w, 0);
    forall k | 0 <= k < |v.slots| ensures BudgetOk(cfg, v.slots[k]) {
      assert BudgetOk(cfg, sv.slots[k]);
      assert Eased(cfg, Begun(sv).slots[k], w.slots[k]) && Eased(cfg, w.slots[k], v.slots[k]);
    }
  }

  lemma PromptsOkToo(cfg: Config, o: Oracle, v: Work)
    requires SampledOk(cfg, v, |v.slots|) && AllInBudget(cfg, v) && Paced(v)
    ensures var w := Prompts(cfg, o, v);
            && BatchOk(cfg, w) && AllInBudget(cfg, w) && Paced(w)
            && (|w.batch| <= cfg.nBatch || |w.batch| <= |w.slots|)
  {
    assert PromptsOk(cfg, v, 0);
    hide BatchOk, Untouched, Paced, AllInBudget, PromptsFrom;
    PromptsFromOk(cfg, o, v);
    PromptsInBudget(cfg, o, v);
  }

  /** Every batch is well formed: cached tokens are ahead of the cells by exactly the pending entries, entries
      carry consecutive positions up to the slot's `n_past`, contributing slots are compatible, ready slots
      point at their own last entry, budgets are kept, and the batch is no larger than was allocated. */
  lemma BuiltOk(cfg: Config, o: Oracle, sv: Server)
    requires RunOk(cfg, sv)
    ensures var w := BuiltFrom(cfg, o, Begun(sv));
            && BatchOk(cfg, w) && AllInBudget(cfg, w) && Paced(w)
            && (|w.batch| <= cfg.nBatch || |w.batch| <= |w.slots|)
  {
    SampledInBudget(cfg, sv);
    hide BatchOk, Paced, AllInBudget, SampledOk, SampledFrom, ShiftFrom, Prompts, RunOk;
    PromptsOkToo(cfg, o, SampledFrom(Shifted(cfg, sv), 0));
  }

  // ------------------------------------------------------------------ one call

  /** What the decode loop leaves is again a sound server. */
  lemma LoopEndsOk(cfg: Config, w0: Work, w: Work)
    requires AllInBudget(cfg, w0) && Paced(w0) && LoopOk(cfg, true, w0, w, |w0.batch|)
    ensures WorkOk(cfg, w) && AllInBudget(cfg, w) && AllMatch(w.slots)
  {
    forall i | 0 <= i < |w.slots|
      ensures SlotOk(cfg, w.slots[i], w.kv[i]) && BudgetOk(cfg, w.slots[i])
      ensures w.slots[i].phase == Generating ==> Goes(w0.slots[i]) && CanBatch(w0.slots[i], w.slots[i])
    {
      assert HandledOk(cfg, w0.slots[i], w.slots[i], w.batch, i, |w.batch|);
      assert CellsHere(cfg, true, w0.slots[i], w.slots[i], w.kv[i], w.batch, i, |w.batch|);
      assert BudgetOk(cfg, w0.slots[i]);
    }
  }

  /** One call of `update_slots` keeps the invariant, unless decoding fails for good: with or without a draft
      model, in any number of views, after any failures. */
  lemma UpdateOk(cfg: Config, sv: Server, o: Oracle)
    requires RunOk(cfg, sv) && !Update(cfg, sv, o).fatal && Verifies(cfg, o)
    ensures RunOk(cfg, Update(cfg, sv, o).server)
  {
    if AllIdle(sv.slots) {
      assert forall i :: 0 <= i < |sv.slots| ==> SlotOk(cfg, sv.slots[i], sv.kv[i]);
    } else {
      BuiltOk(cfg, o, sv);
      var w0 := BuiltFrom(cfg, o, Begun(sv));
      var l := Loop(w0, 0, cfg.nBatch, 0);
      StartOk(cfg, true, w0);
      DecodeFromOk(cfg, true, o, w0, l);
      LoopEndsOk(cfg, w0, DecodeFrom(cfg, o, l).work);
    }
  }

  /** When decoding fails for good the slots are released but their cached tokens are not cut back: those of a
      slot are still in its cells exactly if the loop had passed all its entries. */
  lemma FatalDecodeLosesExactly(cfg: Config, sv: Server, o: Oracle, i: nat)
    requires RunOk(cfg, sv) && Update(cfg, sv, o).fatal && i < |sv.slots| && Verifies(cfg, o)
    ensures var w0 := BuiltFrom(cfg, o, Begun(sv));
            var r := DecodeFrom(cfg, o, Loop(w0, 0, cfg.nBatch, 0));
            var t, kv := Update(cfg, sv, o).server.slots[i], Update(cfg, sv, o).server.kv[i];
            && r.at < |w0.batch|
            && (Covers(kv, t.cache, Effective(t.lora)) <==> Pending(w0.batch, i, r.at) == 0)
  {
    var w0 := BuiltFrom(cfg, o, Begun(sv));
    var l := Loop(w0, 0, cfg.nBatch, 0);
    BuiltOk(cfg, o, sv);
    StartOk(cfg, true, w0);
    DecodeFromOk(cfg, true, o, w0, l);
    var r := DecodeFrom(cfg, o, l);
    hide BuiltFrom, DecodeFrom, Ended;
    FatalEndLosesExactly(cfg, w0, r, i);
  }

  lemma FatalEndLosesExactly(cfg: Config, w0: Work, r: Outcome, i: nat)
    requires Ended(cfg, true, w0, r) && r.fatal && i < |w0.slots|
    ensures var t, kv := r.work.slots[i], r.work.kv[i];
            && r.at < |w0.batch|
            && (Covers(kv, t.cache, Effective(t.lora)) <==> Pending(w0.batch, i, r.at) == 0)
  {
    assert CellsHere(cfg, true, w0.slots[i], r.work.slots[i], r.work.kv[i], w0.batch, i, r.at);
    GapIsUncovered(cfg, r.work.slots[i], r.work.kv[i], w0.slots[i].nPast - Pending(w0.batch, i, r.at),
      w0.slots[i].nPast);
  }

  lemma GapIsUncovered(cfg: Config, s: Slot, kv: Kv, lo: int, hi: int)
    requires CellsBut(cfg, true, s, kv, lo, hi)
    ensures Covers(kv, s.cache, Effective(s.lora)) <==> lo >= hi
  {
    if lo < hi { assert !Holds(kv, lo, s.cache[lo], Effective(s.lora)); }
  }

  /** The first idle call clears all cells but no cached tokens: they stay covered exactly if there are none. */
  lemma LateClearLosesExactly(cfg: Config, sv: Server, o: Oracle, i: nat)
    requires Valid(sv) && AllIdle(sv.slots) && sv.cleanKv && i < |sv.slots|
    ensures var r := Update(cfg, sv, o).server;
            Covers(r.kv[i], r.slots[i].cache, Effective(r.slots[i].lora)) <==> sv.slots[i].cache == []
  {
    if sv.slots[i].cache != [] {
      assert !Holds(map[], 0, sv.slots[i].cache[0], Effective(sv.slots[i].lora));
    }
  }

  /** Without prompt caching a prompt that spans two batches fills the cached tokens with zeros: after the trim
      they are in the cells exactly if every prompt token that was not cached is 0. */
  lemma UncachedPromptLosesExactly(w: Work, i: nat, effect: Effect)
    requires Shaped(w) && i < |w.slots|
    requires var s := w.slots[i];
             && |s.cache| <= s.nPast <= |s.prompt| && s.cache == s.prompt[..|s.cache|]
             && Mirrors(w.kv[i], s.prompt[..s.nPast], effect)
    ensures var s, r := w.slots[i], Trimmed(w, i, true);
            Covers(r.kv[i], r.slots[i].cache, effect)
            <==> forall p :: |s.cache| <= p < s.nPast ==> s.prompt[p] == 0
  {
    var s, r := w.slots[i], Trimmed(w, i, true);
    forall p | 0 <= p < s.nPast
      ensures Holds(r.kv[i], p, r.slots[i].cache[p], effect)
              <==> r.slots[i].cache[p] == s.prompt[p]
    {
      assert Holds(w.kv[i], p, s.prompt[..s.nPast][p], effect);
    }
  }

  // ------------------------------------------------------------------ runs

  /** What can happen to the slots: a task is put on an idle slot, a cancel is processed, an idle slot is erased,
      or `update_slots` is called. */
  datatype Command =
    | LaunchTask(slot: nat, task: Task, ok: bool)
    | CancelTask(target: int)
    | EraseSlot(slot: nat)
    | CallUpdate(o: Oracle)

  function Exec(cfg: Config, sv: Server, c: Command): (r: Server)
    requires Valid(sv)
    ensures Valid(r) && |r.slots| == |sv.slots|
  {
    match c
    case LaunchTask(i, task, ok) =>
      if i >= |sv.slots| || Processing(sv.slots[i]) then sv
      else sv.(slots := sv.slots[i := Launch(cfg, sv.slots[i], task, ok)])
    case CancelTask(target) =>
      var i := SlotOf(sv.slots, target, 0);
      if i == |sv.slots| then sv else sv.(slots := sv.slots[i := Release(sv.slots[i])])
    case EraseSlot(i) =>
      if i >= |sv.slots| || Processing(sv.slots[i]) then sv
      else sv.(slots := sv.slots[i := sv.slots[i].(cache := [])], kv := sv.kv[i := map[]])
    case CallUpdate(o) => Update(cfg, sv, o).server
  }

  predicate TaskOk(cfg: Config, t: Task) {
    t.params.cachePrompt && (cfg.ctxShift ==> DiscardOk(cfg, t.params, |t.prompt|))
  }

  /** Tasks cache their prompts and discard no more than there is, start after the first clear, decoding does not fail
      for good, and drafts can be decoded. */
  ghost predicate Allowed(cfg: Config, sv: Server, c: Command)
    requires Valid(sv)
  {
    match c
    case LaunchTask(_, task, _) => TaskOk(cfg, task) && !sv.cleanKv
    case CallUpdate(o) => !Update(cfg, sv, o).fatal && Verifies(cfg, o)
    case _ => true
  }

  function AfterAll(cfg: Config, sv: Server, cs: seq<Command>): (r: Server)
    requires Valid(sv)
    ensures Valid(r) && |r.slots| == |sv.slots|
    decreases |cs|
  {
    if cs == [] then sv else AfterAll(cfg, Exec(cfg, sv, cs[0]), cs[1..])
  }

  ghost predicate AllAllowed(cfg: Config, sv: Server, cs: seq<Command>)
    requires Valid(sv)
    decreases |cs|
  {
    cs == [] || (Allowed(cfg, sv, cs[0]) && AllAllowed(cfg, Exec(cfg, sv, cs[0]), cs[1..]))
  }

  /** `init`: idle slots, empty cells. */
  function Fresh(n: nat, params: Params): (sv: Server)
    ensures Valid(sv) && |sv.slots| == n
  {
    var slot := Slot(-1, Completion, Idle, params, [], 0, 0, 0, -1, -1, [], [], 0, false, START);
    Server(seq(n, _ => slot), seq(n, _ => map[]), true)
  }

  lemma FreshIsOk(cfg: Config, n: nat, params: Params)
    ensures RunOk(cfg, Fresh(n, params))
  {
  }

  lemma LaunchOk(cfg: Config, s: Slot, kv: Kv, task: Task, ok: bool)
    requires SlotOk(cfg, s, kv) && !Processing(s) && TaskOk(cfg, task)
    ensures var t := Launch(cfg, s, task, ok); SlotOk(cfg, t, kv) && BudgetOk(cfg, t) && t.phase != Generating
  {
  }

  /** One slot, and perhaps its cells, is replaced by a sound one. */
  lemma ReplaceOk(cfg: Config, sv: Server, i: nat, t: Slot, kv: Kv)
    requires RunOk(cfg, sv) && i < |sv.slots| && SlotOk(cfg, t, kv) && BudgetOk(cfg, t) && t.phase != Generating
    requires sv.cleanKv ==> !Processing(t) && t.cache == []
    ensures RunOk(cfg, sv.(slots := sv.slots[i := t], kv := sv.kv[i := kv]))
  {
  }

  lemma LaunchTaskOk(cfg: Config, sv: Server, i: nat, task: Task, ok: bool)
    requires RunOk(cfg, sv) && TaskOk(cfg, task) && !sv.cleanKv
    ensures RunOk(cfg, Exec(cfg, sv, LaunchTask(i, task, ok)))
  {
    if i < |sv.slots| && !Processing(sv.slots[i]) {
      LaunchOk(cfg, sv.slots[i], sv.kv[i], task, ok);
      ReplaceOk(cfg, sv, i, Launch(cfg, sv.slots[i], task, ok), sv.kv[i]);
      assert sv.kv[i := sv.kv[i]] == sv.kv;
    }
  }

  lemma CancelTaskOk(cfg: Config, sv: Server, target: int)
    requires RunOk(cfg, sv)
    ensures RunOk(cfg, Exec(cfg, sv, CancelTask(target)))
  {
    var i := SlotOf(sv.slots, target, 0);
    if i < |sv.slots| {
      assert SlotOk(cfg, sv.slots[i], sv.kv[i]);
      ReplaceOk(cfg, sv, i, Release(sv.slots[i]), sv.kv[i]);
      assert sv.kv[i := sv.kv[i]] == sv.kv;
    }
  }

  lemma EraseSlotOk(cfg: Config, sv: Server, i: nat)
    requires RunOk(cfg, sv)
    ensures RunOk(cfg, Exec(cfg, sv, EraseSlot(i)))
  {
    if i < |sv.slots| && !Processing(sv.slots[i]) {
      assert SlotOk(cfg, sv.slots[i], sv.kv[i]);
      ReplaceOk(cfg, sv, i, sv.slots[i].(cache := []), map[]);
    }
  }

  lemma ExecOk(cfg: Config, sv: Server, c: Command)
    requires RunOk(cfg, sv) && Allowed(cfg, sv, c)
    ensures RunOk(cfg, Exec(cfg, sv, c))
  {
    match c
    case LaunchTask(i, task, ok) => LaunchTaskOk(cfg, sv, i, task, ok);
    case CancelTask(target) => CancelTaskOk(cfg, sv, target);
    case EraseSlot(i) => EraseSlotOk(cfg, sv, i);
    case CallUpdate(o) => UpdateOk(cfg, sv, o);
  }

  lemma {:induction false} RunsKeepOk(cfg: Config, sv: Server, cs: seq<Command>)
    requires RunOk(cfg, sv) && AllAllowed(cfg, sv, cs)
    ensures RunOk(cfg, AfterAll(cfg, sv, cs))
    decreases |cs|
  {
    if cs != [] {
      ExecOk(cfg, sv, cs[0]);
      RunsKeepOk(cfg, Exec(cfg, sv, cs[0]), cs[1..]);
    }
  }

  /** In every run, between any two calls, every slot's cached tokens are in its cells; while a slot is past its
      start and works on a causal task they are all of its cells, and `n_past` of them; `n_past` of a causal task
      is below the window size; and every one of these cells was decoded under adapters equal to the slot's. */
  lemma CacheMirrorsCellsInEveryRun(cfg: Config, n: nat, params: Params, cs: seq<Command>, i: nat)
    requires AllAllowed(cfg, Fresh(n, params), cs) && i < n
    ensures var sv := AfterAll(cfg, Fresh(n, params), cs);
            var s, kv := sv.slots[i], sv.kv[i];
            && (forall p :: 0 <= p < |s.cache| ==> p in kv && kv[p].tok == s.cache[p])
            && (forall p :: 0 <= p < |s.cache| ==> kv[p].effect == Effective(s.lora))
            && (Processing(s) && s.phase != Started && !NonCausal(s) ==>
                  s.nPast == |s.cache| && forall p :: p in kv <==> 0 <= p < s.nPast)
            && (Processing(s) && !NonCausal(s) ==> s.nPast < cfg.nCtx)
  {
    FreshIsOk(cfg, n, params);
    RunsKeepOk(cfg, Fresh(n, params), cs);
    var sv := AfterAll(cfg, Fresh(n, params), cs);
    var s, kv := sv.slots[i], sv.kv[i];
    assert SlotOk(cfg, s, kv);
    forall p | 0 <= p < |s.cache|
      ensures p in kv && kv[p].tok == s.cache[p] && kv[p].effect == Effective(s.lora)
    {
      assert Holds(kv, p, s.cache[p], Effective(s.lora));
    }
  }
}
