/** The decode-retry loop: however often the library fails, the successful views bring the cells up to the cached
    tokens entry by entry, and every ready slot is handled when its entry is decoded. With a draft model slots
    speculate after every view, also those with entries that are still to be decoded. */
module DecodeLoop {
  import opened Wrappers
  import opened KvCache
  import opened Slots
  import opened UpdateSlots
  import opened ServerInvariant
  import opened Budget
  import opened BatchBuilding
  import opened Adapters
  import opened Speculation

  /** The cached tokens of a slot are in its cells but for those at `[lo, hi)`, the entries that are still to be
      decoded; those of a tracked slot are all of its cells otherwise. `sound` is false if some draft could not be
      decoded; then only sizes are kept. */
  ghost predicate CellsBut(cfg: Config, sound: bool, s: Slot, kv: Kv, lo: int, hi: int) {
    && (lo < hi ==> 0 <= lo && hi <= |s.cache|)
    && (Tracked(s) ==> hi <= s.nPast == |s.cache|)
    && (sound ==> CoversBut(kv, s.cache, lo, hi, Effective(s.lora))
                  && (Tracked(s) ==> forall p :: p in kv ==> p < |s.cache|))
  }

  /** What the decode loop leaves of a slot: cached tokens are only added, and only with a draft model. */
  predicate Carried(cfg: Config, s: Slot, t: Slot) {
    && t.idTask == s.idTask && t.kind == s.kind && t.params == s.params && t.lora == s.lora
    && t.prompt == s.prompt && t.nPromptTokens == s.nPromptTokens
    && s.cache <= t.cache && (Tracked(t) ==> Tracked(s))
    && (!cfg.hasDraft ==> t.nPast == s.nPast && t.cache == s.cache)
  }

  /** The cells of slot `i`, `s` in the finished batch and `t` now, when the entries before `k` are decoded. */
  ghost predicate CellsHere(cfg: Config, sound: bool, s: Slot, t: Slot, kv: Kv, batch: seq<Entry>, i: nat, k: nat)
    requires k <= |batch|
  {
    CellsBut(cfg, sound, t, kv, s.nPast - Pending(batch, i, k), s.nPast)
  }

  /** And those of all slots: `were` are the slots of the finished batch. */
  ghost predicate CellsAt(cfg: Config, sound: bool, were: seq<Slot>, slots: seq<Slot>, kv: seq<Kv>, batch: seq<Entry>,
        k: nat) {
    && |kv| == |slots| == |were| && k <= |batch|
    && (forall i {:trigger CellsHere(cfg, sound, were[i], slots[i], kv[i], batch, i, k)} ::
          0 <= i < |slots| ==> CellsHere(cfg, sound, were[i], slots[i], kv[i], batch, i, k))
  }

  /** The adapters in force are those of every slot with an entry. */
  ghost predicate Fits(cfg: Config, were: seq<Slot>, slots: seq<Slot>, batch: seq<Entry>, effect: Effect) {
    && |slots| == |were| && (forall i :: 0 <= i < |slots| ==> Carried(cfg, were[i], slots[i]))
    && (forall j :: 0 <= j < |batch| ==> EntryOk(were, batch, j) && Effective(were[batch[j].seqId].lora) == effect)
  }

  lemma DecodeOne(cfg: Config, sound: bool, were: seq<Slot>, slots: seq<Slot>, kv: seq<Kv>, batch: seq<Entry>, k: nat,
        effect: Effect)
    requires CellsAt(cfg, sound, were, slots, kv, batch, k) && Fits(cfg, were, slots, batch, effect) && k < |batch|
    ensures CellsAt(cfg, sound, were, slots, kv[batch[k].seqId := Filled(kv[batch[k].seqId], batch[k], effect)], batch,
            k + 1)
  {
    var e := batch[k];
    assert EntryOk(were, batch, k);
    var next := kv[e.seqId := Filled(kv[e.seqId], e, effect)];
    hide CellsBut;
    forall i | 0 <= i < |slots|
      ensures CellsHere(cfg, sound, were[i], slots[i], next[i], batch, i, k + 1)
    {
      assert CellsHere(cfg, sound, were[i], slots[i], kv[i], batch, i, k);
      if i == e.seqId { FillOne(cfg, sound, slots[i], kv[i], e, were[i].nPast, effect); }
    }
  }

  lemma FillOne(cfg: Config, sound: bool, s: Slot, kv: Kv, e: Entry, hi: int, effect: Effect)
    requires CellsBut(cfg, sound, s, kv, e.pos, hi) && e.pos < hi && e.tok == s.cache[e.pos]
             && effect == Effective(s.lora)
    ensures CellsBut(cfg, sound, s, Filled(kv, e, effect), e.pos + 1, hi)
  {
    var next := Filled(kv, e, effect);
    forall p | sound && 0 <= p < |s.cache| && !(e.pos + 1 <= p < hi)
      ensures Holds(next, p, s.cache[p], Effective(s.lora)) {
      if p != e.pos { assert Holds(kv, p, s.cache[p], Effective(s.lora)); }
    }
  }

  lemma {:induction false} DecodeMany(cfg: Config, sound: bool, were: seq<Slot>, slots: seq<Slot>, kv: seq<Kv>,
        batch: seq<Entry>,
                                      k: nat, to: nat, effect: Effect)
    requires CellsAt(cfg, sound, were, slots, kv, batch, k) && Fits(cfg, were, slots, batch, effect)
             && k <= to <= |batch|
    ensures CellsAt(cfg, sound, were, slots, DecodedCells(kv, batch, k, to, effect), batch, to)
    decreases |batch| - k
  {
    if k < to {
      assert EntryOk(were, batch, k);
      DecodeOne(cfg, sound, were, slots, kv, batch, k, effect);
      DecodeMany(cfg, sound, were, slots, kv[batch[k].seqId := Filled(kv[batch[k].seqId], batch[k], effect)], batch,
        k + 1, to,
        effect);
    }
  }

  // ------------------------------------------------------------------ handling

  /** A slot of the finished batch, `s`, and what is left of it when entries before `k` are decoded. */
  predicate HandledOk(cfg: Config, s: Slot, t: Slot, batch: seq<Entry>, i: nat, k: nat) {
    && Carried(cfg, s, t) && PhaseOk(cfg, t) && ReadyOk(t, batch, i) && Spent(cfg, s, t)
    && (t.phase == Generating ==> s.phase == Generating || s.phase == DonePrompt)
    && (IsReady(t) ==> IsReady(s) && k <= t.iBatch) && (t.iBatch == s.iBatch || (t.iBatch == -1 && IsReady(s)))
    && (t == s || ((t.phase == Idle || t.phase == Generating)
                   && (t.iBatch == -1 || (cfg.hasDraft && s.phase == Generating))))
  }

  /** Between two views: entries before `k` are decoded and their slots handled. `w0` is the finished batch. */
  ghost predicate LoopOk(cfg: Config, sound: bool, w0: Work, w: Work, k: nat) {
    match w
    case Work(slots, kv, batch, _, batched, _) =>
      && Shaped(w0) && Shaped(w) && |slots| == |w0.slots| && batch == w0.batch && batched == w0.batched
      && CellsAt(cfg, sound, w0.slots, slots, kv, batch, k)
      && (forall i {:trigger HandledOk(cfg, w0.slots[i], slots[i], batch, i, k)} ::
            0 <= i < |slots| ==> HandledOk(cfg, w0.slots[i], slots[i], batch, i, k))
  }

  /** Slot `i` of the step's result. */
  function HandledSlot(cfg: Config, s: Slot, smp: Sample): Slot {
    if s.phase == DonePrompt && NonCausal(s) then Release(s).(iBatch := -1) else
    var p := ProcessToken(cfg, Counted(s), smp);
    if p.slot.text.hasNext then p.slot else Release(p.slot)
  }

  lemma HandleStepShape(cfg: Config, o: Oracle, call: nat, start: nat, count: nat, w: Work, i: nat)
    requires Shaped(w) && i < |w.slots|
    ensures var s, r := w.slots[i], HandleStep(cfg, o, call, start, count, w, i);
            && r.kv == w.kv && r.batched == w.batched
            && r.slots == if InView(s, start, count) && (s.phase == DonePrompt || s.phase == Generating)
                          then w.slots[i := HandledSlot(cfg, s, o.samples(call, i))] else w.slots
  {
  }

  /** What handling leaves of a slot. */
  predicate Kept(s: Slot, t: Slot) { SameRun(s, t) && (Tracked(t) ==> Tracked(s)) }

  lemma HandledSlotOk(cfg: Config, s: Slot, smp: Sample)
    requires PhaseOk(cfg, s) && IsReady(s)
    ensures var t := HandledSlot(cfg, s, smp);
            Kept(s, t) && PhaseOk(cfg, t) && Spent(cfg, s, t) && t.iBatch == -1
              && (t.phase == Idle || t.phase == Generating)
  {
    if !(s.phase == DonePrompt && NonCausal(s)) {
      TokenSpendsBudget(cfg, s, smp);
      ProcessTokenStops(cfg, Counted(s), smp);
    }
  }

  /** A slot whose entry lies in the view is handled; nothing else happens to slots. */
  lemma HandleSlotOk(cfg: Config, o: Oracle, call: nat, start: nat, count: nat, w: Work, i: nat, s0: Slot)
    requires Shaped(w) && i < |w.slots| && HandledOk(cfg, s0, w.slots[i], w.batch, i, start)
    ensures var r := HandleStep(cfg, o, call, start, count, w, i);
            && HandledOk(cfg, s0, r.slots[i], w.batch, i, start + count)
            && Kept(w.slots[i], r.slots[i]) && r.kv == w.kv && r.batched == w.batched
            && (forall k :: 0 <= k < |w.slots| && k != i ==> r.slots[k] == w.slots[k])
  {
    var s := w.slots[i];
    HandleStepShape(cfg, o, call, start, count, w, i);
    if InView(s, start, count) && IsReady(s) { HandledSlotOk(cfg, s, o.samples(call, i)); }
  }

  /** Slots below `i` are past the view, the others not yet. */
  ghost predicate MidView(cfg: Config, sound: bool, w0: Work, w: Work, start: nat, count: nat, i: nat) {
    && Shaped(w0) && Shaped(w) && |w.slots| == |w0.slots| && w.batch == w0.batch && w.batched == w0.batched
    && start + count <= |w.batch|
    && CellsAt(cfg, sound, w0.slots, w.slots, w.kv, w.batch, start + count)
    && i <= |w.slots|
    && (forall k {:trigger HandledOk(cfg, w0.slots[k], w.slots[k], w.batch, k, start + count)} ::
          0 <= k < i ==> HandledOk(cfg, w0.slots[k], w.slots[k], w.batch, k, start + count))
    && (forall k {:trigger HandledOk(cfg, w0.slots[k], w.slots[k], w.batch, k, start)} ::
          i <= k < |w.slots| ==> HandledOk(cfg, w0.slots[k], w.slots[k], w.batch, k, start))
  }

  lemma HandleStepOk(cfg: Config, sound: bool, o: Oracle, call: nat, start: nat, count: nat, w0: Work, w: Work, i: nat)
    requires MidView(cfg, sound, w0, w, start, count, i) && i < |w.slots|
    ensures MidView(cfg, sound, w0, HandleStep(cfg, o, call, start, count, w, i), start, count, i + 1)
  {
    var r := HandleStep(cfg, o, call, start, count, w, i);
    assert HandledOk(cfg, w0.slots[i], w.slots[i], w.batch, i, start);
    HandleSlotOk(cfg, o, call, start, count, w, i, w0.slots[i]);
    HandleStepShape(cfg, o, call, start, count, w, i);
    forall k | i < k < |w.slots| ensures HandledOk(cfg, w0.slots[k], r.slots[k], w.batch, k, start) {
      assert HandledOk(cfg, w0.slots[k], w.slots[k], w.batch, k, start);
    }
    assert CellsHere(cfg, sound, w0.slots[i], w.slots[i], w.kv[i], w.batch, i, start + count);
    HandledKeepsCells(cfg, sound, w0.slots[i], w.slots[i], r.slots[i], w.kv[i], w.batch, i, start + count);
    forall k | 0 <= k < |w.slots| ensures CellsHere(cfg, sound, w0.slots[k], r.slots[k], r.kv[k], w.batch, k,
      start + count) {
      assert CellsHere(cfg, sound, w0.slots[k], w.slots[k], w.kv[k], w.batch, k, start + count);
    }
  }

  lemma HandledKeepsCells(cfg: Config, sound: bool, s: Slot, t: Slot, u: Slot, kv: Kv, batch: seq<Entry>, i: nat,
        k: nat)
    requires k <= |batch| && CellsHere(cfg, sound, s, t, kv, batch, i, k) && Kept(t, u)
    ensures CellsHere(cfg, sound, s, u, kv, batch, i, k)
  {
  }

  lemma {:induction false} HandleFromOk(cfg: Config, sound: bool, o: Oracle, call: nat, start: nat, count: nat,
        w0: Work, w: Work,
        i: nat)
    requires MidView(cfg, sound, w0, w, start, count, i) && i <= |w.slots|
    ensures LoopOk(cfg, sound, w0, HandleFrom(cfg, o, call, start, count, w, i), start + count)
    decreases |w.slots| - i
  {
    if i < |w.slots| {
      HandleStepOk(cfg, sound, o, call, start, count, w0, w, i);
      HandleFromOk(cfg, sound, o, call, start, count, w0, HandleStep(cfg, o, call, start, count, w, i), i + 1);
    }
  }

  // ------------------------------------------------------------------ speculating

  /** What a speculative step makes of a slot. */
  predicate Speculated(cfg: Config, s: Slot, t: Slot) {
    && Carried(cfg, s, t) && PhaseOk(cfg, t) && Spent(cfg, s, t) && t.iBatch == s.iBatch
    && s.phase == Generating && (t.phase == Generating || t.phase == Idle)
  }

  lemma AdvancedOk(cfg: Config, sound: bool, o: Oracle, call: nat, s: Slot, kv: Kv, i: nat, lo: int, hi: int,
        effect: Effect, ok: bool)
    requires PhaseOk(cfg, s) && Speculates(cfg, o, call, s, i) && CellsBut(cfg, sound, s, kv, lo, hi)
    requires sound ==> ok && effect == Effective(s.lora)
    ensures var draft := Draft(cfg, o, call, s, i);
            var ids := AcceptedIds(o, call, i, draft);
            var t, next := Advanced(s, ids), AdvancedKv(s, kv, draft, ids, effect, ok);
            PhaseOk(cfg, t) && s.cache <= t.cache && CellsBut(cfg, sound, t, next, lo, hi)
  {
    AdvancedCache(cfg, o, call, s, i);
    if sound { AdvancedCells(cfg, o, call, s, kv, i, lo, hi, effect); }
  }

  /** Telling tokens changes nothing that the cells depend on. */
  lemma ToldOk(cfg: Config, sound: bool, s: Slot, t: Slot, kv: Kv, lo: int, hi: int)
    requires PhaseOk(cfg, s) && CellsBut(cfg, sound, s, kv, lo, hi) && SameRun(s, t)
             && (t.phase == s.phase || t.phase == Idle)
    requires s.phase == Generating
    ensures PhaseOk(cfg, t) && CellsBut(cfg, sound, t, kv, lo, hi)
  {
  }

  /** A speculative step of slot `i`, seen from the slots. */
  ghost predicate SpeculatedAlone(cfg: Config, sound: bool, w: Work, r: Work, i: nat, lo: int, hi: int) {
    && Shaped(w) && Shaped(r) && i < |w.slots| == |r.slots| && r.batch == w.batch && r.batched == w.batched
    && (r.slots[i] == w.slots[i] || Speculated(cfg, w.slots[i], r.slots[i]))
       && CellsBut(cfg, sound, r.slots[i], r.kv[i], lo, hi)
    && (forall k :: 0 <= k < |w.slots| && k != i ==> r.slots[k] == w.slots[k] && r.kv[k] == w.kv[k])
  }

  /** The step, between advancing and telling. */
  lemma EmittedAlone(cfg: Config, sound: bool, w: Work, v: Work, r: Work, i: nat, ids: seq<Sample>, lo: int, hi: int)
    requires Shaped(w) && i < |w.slots| && ids != [] && |v.kv| == |w.kv|
    requires v == Put(w, i, Advanced(w.slots[i], ids)).(kv := w.kv[i := v.kv[i]])
    requires w.slots[i].phase == Generating && cfg.hasDraft && BudgetOk(cfg, w.slots[i])
    requires PhaseOk(cfg, v.slots[i]) && CellsBut(cfg, sound, v.slots[i], v.kv[i], lo, hi)
             && w.slots[i].cache <= v.slots[i].cache
    requires Emitted(cfg, v, r, i) && BudgetOk(cfg, r.slots[i]) && r.batch == w.batch
    ensures SpeculatedAlone(cfg, sound, w, r, i, lo, hi)
  {
    ToldOk(cfg, sound, v.slots[i], r.slots[i], v.kv[i], lo, hi);
  }

  /** Drafts can be decoded. The source goes on as if they were. */
  ghost predicate Verifies(cfg: Config, o: Oracle) { cfg.hasDraft ==> forall call: nat, i: nat :: o.verifies(call, i) }

  /** A slot may speculate also while its own entry is still to be decoded: its cells then lack that entry. */
  lemma SpeculateSlotOk(cfg: Config, sound: bool, o: Oracle, call: nat, w: Work, i: nat, lo: int, hi: int)
    requires Shaped(w) && i < |w.slots| && PhaseOk(cfg, w.slots[i]) && BudgetOk(cfg, w.slots[i])
    requires CellsBut(cfg, sound, w.slots[i], w.kv[i], lo, hi)
    requires sound && w.slots[i].phase == Generating ==> InForce(w) == Effective(w.slots[i].lora) && o.verifies(call, i)
    ensures SpeculatedAlone(cfg, sound, w, SpeculateStep(cfg, o, call, w, i), i, lo, hi)
  {
    var s := w.slots[i];
    if Speculates(cfg, o, call, s, i) {
      var draft := Draft(cfg, o, call, s, i);
      var ids := AcceptedIds(o, call, i, draft);
      var t, kv := Advanced(s, ids), AdvancedKv(s, w.kv[i], draft, ids, InForce(w), o.verifies(call, i));
      var v := Put(w, i, t).(kv := w.kv[i := kv]);
      AdvancedOk(cfg, sound, o, call, s, w.kv[i], i, lo, hi, InForce(w), o.verifies(call, i));
      EmitKeeps(cfg, v, i, ids, 0);
      assert SpeculateStep(cfg, o, call, w, i) == EmitFrom(cfg, v, i, ids, 0);
      hide *;
      EmittedAlone(cfg, sound, w, v, EmitFrom(cfg, v, i, ids, 0), i, ids, lo, hi);
    }
  }

  lemma SpeculatedStaysHandled(cfg: Config, s: Slot, t: Slot, u: Slot, batch: seq<Entry>, i: nat, k: nat)
    requires HandledOk(cfg, s, t, batch, i, k) && Speculated(cfg, t, u) && cfg.hasDraft && BudgetOk(cfg, s)
    ensures HandledOk(cfg, s, u, batch, i, k)
  {
  }

  /** One slot and its cells move on. */
  lemma LoopMovesOn(cfg: Config, sound: bool, w0: Work, w: Work, r: Work, i: nat, k: nat)
    requires LoopOk(cfg, sound, w0, w, k) && i < |w.slots| && Shaped(r) && |r.slots| == |w.slots|
    requires r.batch == w.batch && r.batched == w.batched
    requires forall j :: 0 <= j < |w.slots| && j != i ==> r.slots[j] == w.slots[j] && r.kv[j] == w.kv[j]
    requires HandledOk(cfg, w0.slots[i], r.slots[i], w.batch, i, k)
    requires CellsHere(cfg, sound, w0.slots[i], r.slots[i], r.kv[i], w.batch, i, k)
    ensures LoopOk(cfg, sound, w0, r, k)
  {
  }

  lemma SpeculatedAloneOk(cfg: Config, sound: bool, w0: Work, w: Work, r: Work, i: nat, k: nat)
    requires LoopOk(cfg, sound, w0, w, k) && AllInBudget(cfg, w0) && Paced(w0) && i < |w.slots| && cfg.hasDraft
    requires SpeculatedAlone(cfg, sound, w, r, i, w0.slots[i].nPast - Pending(w.batch, i, k), w0.slots[i].nPast)
    ensures LoopOk(cfg, sound, w0, r, k)
  {
    assert HandledOk(cfg, w0.slots[i], w.slots[i], w.batch, i, k);
    if r.slots[i] != w.slots[i] { SpeculatedStaysHandled(cfg, w0.slots[i], w.slots[i], r.slots[i], w.batch, i, k); }
    LoopMovesOn(cfg, sound, w0, w, r, i, k);
  }

  /** A generating slot was in the batch, or could have been: the adapters in force are its own. */
  lemma GeneratingIsInForce(cfg: Config, sound: bool, w0: Work, w: Work, i: nat, k: nat)
    requires LoopOk(cfg, sound, w0, w, k) && Paced(w0) && i < |w.slots| && w.slots[i].phase == Generating
    ensures InForce(w) == Effective(w.slots[i].lora)
  {
    assert HandledOk(cfg, w0.slots[i], w.slots[i], w.batch, i, k);
    assert w0.batched.Some?;
    var b := w0.batched.value;
    assert HandledOk(cfg, w0.slots[b], w.slots[b], w.batch, b, k);
  }

  lemma SpeculateStepOk(cfg: Config, sound: bool, o: Oracle, call: nat, w0: Work, w: Work, i: nat, k: nat)
    requires LoopOk(cfg, sound, w0, w, k) && AllInBudget(cfg, w0) && Paced(w0) && i < |w.slots|
    requires cfg.hasDraft && (sound ==> Verifies(cfg, o))
    ensures LoopOk(cfg, sound, w0, SpeculateStep(cfg, o, call, w, i), k)
  {
    hide SpeculateStep, SpeculatedAlone, CellsBut;
    assert HandledOk(cfg, w0.slots[i], w.slots[i], w.batch, i, k);
    assert CellsHere(cfg, sound, w0.slots[i], w.slots[i], w.kv[i], w.batch, i, k);
    if w.slots[i].phase == Generating { GeneratingIsInForce(cfg, sound, w0, w, i, k); }
    SpeculateSlotOk(cfg, sound, o, call, w, i, w0.slots[i].nPast - Pending(w.batch, i, k), w0.slots[i].nPast);
    SpeculatedAloneOk(cfg, sound, w0, w, SpeculateStep(cfg, o, call, w, i), i, k);
  }

  lemma {:induction false} SpeculateFromOk(cfg: Config, sound: bool, o: Oracle, call: nat, w0: Work, w: Work, i: nat,
        k: nat)
    requires LoopOk(cfg, sound, w0, w, k) && AllInBudget(cfg, w0) && Paced(w0) && i <= |w.slots|
    requires cfg.hasDraft && (sound ==> Verifies(cfg, o))
    ensures LoopOk(cfg, sound, w0, SpeculateFrom(cfg, o, call, w, i), k)
    decreases |w.slots| - i
  {
    if i < |w.slots| {
      SpeculateStepOk(cfg, sound, o, call, w0, w, i, k);
      SpeculateFromOk(cfg, sound, o, call, w0, SpeculateStep(cfg, o, call, w, i), i + 1, k);
    }
  }

  // ------------------------------------------------------------------ views

  lemma InForceIsFixed(cfg: Config, sound: bool, w0: Work, w: Work, k: nat)
    requires BatchOk(cfg, w0) && LoopOk(cfg, sound, w0, w, k)
    ensures Fits(cfg, w0.slots, w.slots, w.batch, InForce(w))
  {
    forall i | 0 <= i < |w.slots| ensures Carried(cfg, w0.slots[i], w.slots[i]) {
      assert HandledOk(cfg, w0.slots[i], w.slots[i], w.batch, i, k);
    }
    forall j | 0 <= j < |w.batch|
      ensures EntryOk(w0.slots, w.batch, j) && Effective(w0.slots[w.batch[j].seqId].lora) == InForce(w)
    {
      assert EntryOk(w0.slots, w0.batch, j);
      assert Carried(cfg, w0.slots[w.batched.value], w.slots[w.batched.value]);
    }
  }

  lemma ViewDecodedOk(cfg: Config, sound: bool, start: nat, count: nat, w0: Work, w: Work, d: Work)
    requires LoopOk(cfg, sound, w0, w, start) && start + count <= |w.batch| && d == ViewDecoded(w, start, count)
    requires Fits(cfg, w0.slots, w.slots, w.batch, InForce(w))
    ensures MidView(cfg, sound, w0, d, start, count, 0)
  {
    DecodeMany(cfg, sound, w0.slots, w.slots, w.kv, w.batch, start, start + count, InForce(w));
  }

  lemma ViewDoneOk(cfg: Config, sound: bool, o: Oracle, call: nat, start: nat, count: nat, w0: Work, w: Work, d: Work,
        h: Work)
    requires LoopOk(cfg, sound, w0, w, start) && start + count <= |w.batch|
             && Fits(cfg, w0.slots, w.slots, w.batch, InForce(w))
    requires d == ViewDecoded(w, start, count) && h == HandleFrom(cfg, o, call, start, count, d, 0)
    requires (cfg.hasDraft ==> AllInBudget(cfg, w0) && Paced(w0)) && (sound ==> Verifies(cfg, o))
    ensures LoopOk(cfg, sound, w0, if cfg.hasDraft then SpeculateFrom(cfg, o, call, h, 0) else h, start + count)
  {
    ViewDecodedOk(cfg, sound, start, count, w0, w, d);
    HandleFromOk(cfg, sound, o, call, start, count, w0, d, 0);
    if cfg.hasDraft { SpeculateFromOk(cfg, sound, o, call, w0, h, 0, start + count); }
  }

  /** Giving up releases every slot and leaves cells and cached tokens as they are. */
  lemma {:induction false} GiveUpKeeps(w: Work, i: nat)
    requires Shaped(w) && i <= |w.slots|
    ensures var r := GiveUpFrom(w, i);
            && r.kv == w.kv && r.batched == w.batched
            && (forall k :: 0 <= k < |w.slots| ==> r.slots[k] == if k < i then w.slots[k] else Release(w.slots[k]))
    decreases |w.slots| - i
  {
    if i < |w.slots| {
      GiveUpKeeps(GiveUpOne(w, i), i + 1);
    }
  }

  /** How far the loop got. */
  function Reached(r: Outcome): nat { if r.fatal then r.at else |r.work.batch| }

  /** The cells are those of the entries the loop reached; unless it gave up, that is all of them and every
      ready slot was handled. */
  ghost predicate Ended(cfg: Config, sound: bool, w0: Work, r: Outcome) {
    && Shaped(w0) && Shaped(r.work) && |r.work.slots| == |w0.slots| && r.work.batch == w0.batch
    && Reached(r) <= |w0.batch|
    && CellsAt(cfg, sound, w0.slots, r.work.slots, r.work.kv, w0.batch, Reached(r))
    && (r.fatal ==> r.at < |w0.batch| && AllIdle(r.work.slots))
    && (!r.fatal ==> LoopOk(cfg, sound, w0, r.work, |w0.batch|))
  }

  lemma ReleasedCells(cfg: Config, sound: bool, s: Slot, kv: Kv, lo: int, hi: int)
    requires CellsBut(cfg, sound, s, kv, lo, hi)
    ensures CellsBut(cfg, sound, Release(s), kv, lo, hi)
  {
  }

  lemma GivenUpEnded(cfg: Config, sound: bool, w0: Work, w: Work, i: nat)
    requires LoopOk(cfg, sound, w0, w, i) && i < |w.batch|
    ensures Ended(cfg, sound, w0, Outcome(GiveUpFrom(w, 0), true, i))
  {
    var r := GiveUpFrom(w, 0);
    GiveUpKeeps(w, 0);
    forall k | 0 <= k < |r.slots|
      ensures CellsHere(cfg, sound, w0.slots[k], r.slots[k], r.kv[k], w0.batch, k, i)
    {
      assert CellsHere(cfg, sound, w0.slots[k], w.slots[k], w.kv[k], w0.batch, k, i);
      ReleasedCells(cfg, sound, w.slots[k], w.kv[k], w0.slots[k].nPast - Pending(w0.batch, k, i), w0.slots[k].nPast);
    }
  }

  lemma DoneEnded(cfg: Config, sound: bool, w0: Work, w: Work, i: nat)
    requires LoopOk(cfg, sound, w0, w, |w.batch|)
    ensures Ended(cfg, sound, w0, Outcome(w, false, i))
  {
  }

  /** What holds before every turn. */
  ghost predicate TurnOk(cfg: Config, sound: bool, w0: Work, l: Loop) {
    l.nBatch >= 1 && LoopOk(cfg, sound, w0, l.work, l.i)
  }

  ghost predicate NextOk(cfg: Config, sound: bool, w0: Work, n: Decided) {
    match n
    case Stop(outcome) => Ended(cfg, sound, w0, outcome)
    case Again(m) => TurnOk(cfg, sound, w0, m)
  }

  /** `m` is `l` after a view of `count` entries. */
  predicate NextView(cfg: Config, o: Oracle, l: Loop, count: nat, m: Loop) {
    && Shaped(l.work) && l.i + count <= |l.work.batch| && count > 0
    && m == Loop(ViewDone(cfg, o, l.call, l.i, count, l.work), l.i + count, l.nBatch, l.call + 1)
  }

  lemma ViewTurnIs(cfg: Config, o: Oracle, l: Loop, count: nat)
    requires Shaped(l.work) && l.nBatch >= 1 && l.i < |l.work.batch| && o.decodes(l.call) == 0
    requires count == Min(l.nBatch, |l.work.batch| - l.i)
    ensures DecodeTurn(cfg, o, l).Again? && NextView(cfg, o, l, count, DecodeTurn(cfg, o, l).loop)
  {
  }

  lemma ViewTurnOk(cfg: Config, sound: bool, o: Oracle, w0: Work, l: Loop, count: nat, m: Loop)
    requires TurnOk(cfg, sound, w0, l) && NextView(cfg, o, l, count, m)
    requires Fits(cfg, w0.slots, l.work.slots, l.work.batch, InForce(l.work))
             && (cfg.hasDraft ==> AllInBudget(cfg, w0) && Paced(w0)) && (sound ==> Verifies(cfg, o))
    ensures TurnOk(cfg, sound, w0, m)
  {
    var d := ViewDecoded(l.work, l.i, count);
    ViewDoneOk(cfg, sound, o, l.call, l.i, count, w0, l.work, d, HandleFrom(cfg, o, l.call, l.i, count, d, 0));
  }

  lemma RetryTurnOk(cfg: Config, sound: bool, o: Oracle, w0: Work, l: Loop)
    requires TurnOk(cfg, sound, w0, l) && l.i < |l.work.batch| && o.decodes(l.call) != 0
    ensures NextOk(cfg, sound, w0, DecodeTurn(cfg, o, l))
  {
    if l.nBatch == 1 || o.decodes(l.call) < 0 {
      GivenUpEnded(cfg, sound, w0, l.work, l.i);
    } else {
      assert DecodeTurn(cfg, o, l) == Again(Loop(l.work, l.i, l.nBatch / 2, l.call + 1));
    }
  }

  lemma DecodeTurnOk(cfg: Config, sound: bool, o: Oracle, w0: Work, l: Loop)
    requires BatchOk(cfg, w0) && TurnOk(cfg, sound, w0, l) && (cfg.hasDraft ==> AllInBudget(cfg, w0) && Paced(w0))
             && (sound ==> Verifies(cfg, o))
    ensures NextOk(cfg, sound, w0, DecodeTurn(cfg, o, l))
  {
    if l.i >= |l.work.batch| {
      DoneEnded(cfg, sound, w0, l.work, l.i);
    } else if o.decodes(l.call) == 0 {
      var count := Min(l.nBatch, |l.work.batch| - l.i);
      ViewTurnIs(cfg, o, l, count);
      InForceIsFixed(cfg, sound, w0, l.work, l.i);
      ViewTurnOk(cfg, sound, o, w0, l, count, DecodeTurn(cfg, o, l).loop);
    } else {
      RetryTurnOk(cfg, sound, o, w0, l);
    }
  }

  /** Whatever the library returns, the loop ends, and it ends well. */
  lemma {:induction false} DecodeFromOk(cfg: Config, sound: bool, o: Oracle, w0: Work, l: Loop)
    requires BatchOk(cfg, w0) && TurnOk(cfg, sound, w0, l) && (cfg.hasDraft ==> AllInBudget(cfg, w0) && Paced(w0))
             && (sound ==> Verifies(cfg, o))
    ensures Ended(cfg, sound, w0, DecodeFrom(cfg, o, l))
    decreases |l.work.batch| - l.i, l.nBatch
  {
    DecodeTurnOk(cfg, sound, o, w0, l);
    match DecodeTurn(cfg, o, l)
    case Stop(_) =>
    case Again(m) => DecodeFromOk(cfg, sound, o, w0, m);
  }

  /** The loop starts with no cell filled and no slot handled. */
  lemma StartOk(cfg: Config, sound: bool, w0: Work)
    requires BatchOk(cfg, w0)
    ensures LoopOk(cfg, sound, w0, w0, 0)
  {
    forall i | 0 <= i < |w0.slots|
      ensures CellsHere(cfg, sound, w0.slots[i], w0.slots[i], w0.kv[i], w0.batch, i, 0)
    {
      var s, r := w0.slots[i], Pending(w0.batch, i, 0);
      assert Behind(cfg, s, w0.kv[i], r);
      if Exact(cfg, s, w0.kv[i], r) {
        forall p | 0 <= p < |s.cache| && !(s.nPast - r <= p < s.nPast)
          ensures Holds(w0.kv[i], p, s.cache[p], Effective(s.lora))
        {
          assert Holds(w0.kv[i], p, s.cache[..s.nPast - r][p], Effective(s.lora));
        }
      }
    }
  }
}
