/** What holds of every slot between two calls of `update_slots`, and the two steps of the context shift. */
module ServerInvariant {
  import opened KvCache
  import opened PromptReuse
  import opened Slots
  import opened UpdateSlots

  /** The states in which a slot's cached tokens are exactly its cells. A waiting embedding or rerank slot is
      not among them: it keeps the cached tokens of an earlier task, with `n_past` 0, until its prompt fits. */
  predicate Tracked(s: Slot) {
    (s.phase == ProcessingPrompt && !NonCausal(s)) || s.phase == DonePrompt || s.phase == Generating
  }

  /** `n_discard` is 0 or at most what is left behind the kept tokens when the window is full. */
  predicate DiscardOk(cfg: Config, p: Params, nPrompt: nat) {
    p.nDiscard == 0
    || p.nDiscard <= cfg.nCtx - 1 - (if cfg.addBos then 1 else 0) - ClampKeep(p.nKeep, nPrompt, cfg.nCtx)
  }

  predicate PhaseOk(cfg: Config, s: Slot) {
    && (Processing(s) ==> s.params.cachePrompt && (cfg.ctxShift ==> DiscardOk(cfg, s.params, |s.prompt|)))
    && (s.phase == Started ==> s.nPast == 0)
    && (Tracked(s) && !NonCausal(s) ==> s.nPast < cfg.nCtx && 0 <= s.params.nKeep <= cfg.nCtx - 4)
    && (s.phase == ProcessingPrompt ==>
          && s.nPromptTokens == |s.prompt| && s.nPast < s.nPromptTokens
          && (NonCausal(s) ==> s.nPast == 0 && s.nPromptTokens <= cfg.nBatch)
          && (!NonCausal(s) ==> s.nPromptTokens < cfg.nCtx && s.cache == s.prompt[..s.nPast]))
    && (s.phase == DonePrompt ==>
          s.nPromptTokens == s.nPast && s.cache == s.prompt && s.prompt != [] && s.nDecoded == 0)
    && (s.phase == Generating ==> !NonCausal(s))
  }

  /** The cached tokens are in the cells; of a tracked slot they are all the cells, and `n_past` counts them.
      Every such cell was decoded under adapters equal to the slot's. */
  ghost predicate CellsOk(cfg: Config, s: Slot, kv: Kv) {
    && Covers(kv, s.cache, Effective(s.lora))
    && (Tracked(s) ==> s.nPast == |s.cache| && Mirrors(kv, s.cache, Effective(s.lora)))
  }

  /** Between two calls a generating slot has been sampled. (Other slots can keep an old `i_batch`, which nothing
      looks at until their next prompt is done.) */
  ghost predicate SlotOk(cfg: Config, s: Slot, kv: Kv) {
    PhaseOk(cfg, s) && CellsOk(cfg, s, kv) && s.phase != DonePrompt && (s.phase == Generating ==> s.iBatch == -1)
  }

  // ------------------------------------------------------------------ context shift

  /** Only a generating slot whose window is full up to the last place needs a shift. */
  lemma ShiftIsForFullWindow(cfg: Config, s: Slot)
    requires PhaseOk(cfg, s) && s.phase != DonePrompt && NeedsShift(cfg, s)
    ensures s.phase == Generating && s.nPast == cfg.nCtx - 1
  {
  }

  /** The shifted slot's cells are its cached tokens, and `n_past` counts them. */
  ghost predicate ShiftFits(cfg: Config, s: Slot, kv: Kv) {
    var t := ShiftedSlot(cfg, s);
    t.nPast == |t.cache| && Mirrors(ShiftedKv(cfg, s, kv), t.cache, Effective(t.lora))
  }

  lemma BoundedShiftFits(cfg: Config, s: Slot, kv: Kv)
    requires s.params.cachePrompt && s.nPast == |s.cache| && Mirrors(kv, s.cache, Effective(s.lora))
    requires var keep, d := KeptTokens(cfg, s), Discarded(cfg, s); 0 <= keep && 1 <= d && keep + d <= s.nPast
    ensures ShiftFits(cfg, s, kv)
  {
    var keep, d, t := KeptTokens(cfg, s), Discarded(cfg, s), ShiftedSlot(cfg, s);
    assert t.cache == s.cache[..keep] + s.cache[keep + d..] && t.lora == s.lora;
    assert ShiftedKv(cfg, s, kv) == SeqAdd(SeqRm(kv, keep, keep + d), keep + d, s.nPast, -d);
    hide Mirrors, SeqAdd, SeqRm, ShiftedSlot, ShiftedKv, Discarded, KeptTokens;
    ShiftMirrors(kv, s.cache, keep, d, Effective(s.lora));
  }

  lemma LongShiftDoesNotFit(cfg: Config, s: Slot, kv: Kv)
    requires s.params.cachePrompt && s.nPast == |s.cache| && Mirrors(kv, s.cache, Effective(s.lora))
    requires var keep, d := KeptTokens(cfg, s), Discarded(cfg, s); 0 <= keep && 1 <= d && 0 < s.nPast < keep + d
    ensures !ShiftFits(cfg, s, kv)
  {
    var keep, d, q := KeptTokens(cfg, s), Discarded(cfg, s), s.nPast - Discarded(cfg, s);
    if q >= 0 {
      assert Holds(kv, q, s.cache[q], Effective(s.lora));
      SeqAddAt(SeqRm(kv, keep, keep + d), keep + d, s.nPast, -d, q);
      assert q in ShiftedKv(cfg, s, kv) && |ShiftedSlot(cfg, s).cache| == q;
    }
  }

  /** Why the discard must be bounded: for a full window, the shifted cells mirror the shifted cached tokens, and
      `n_past` counts them, exactly when the discarded block lies inside the window: always, unless the user asks
      for more. */
  lemma ShiftNeedsBoundedDiscard(cfg: Config, s: Slot, kv: Kv)
    requires s.params.cachePrompt && s.nPast == |s.cache| && Mirrors(kv, s.cache, Effective(s.lora))
    requires NeedsShift(cfg, s) && 0 <= s.params.nKeep <= cfg.nCtx - 4
    ensures ShiftFits(cfg, s, kv)
            <==> s.params.nDiscard == 0
                 || s.params.nKeep + (if cfg.addBos then 1 else 0) + s.params.nDiscard <= s.nPast
  {
    assert KeptTokens(cfg, s) + Discarded(cfg, s) <= s.nPast
           <==> s.params.nDiscard == 0 || KeptTokens(cfg, s) + s.params.nDiscard <= s.nPast;
    assert 0 <= KeptTokens(cfg, s) && 1 <= Discarded(cfg, s);
    hide ShiftFits, Discarded;
    if KeptTokens(cfg, s) + Discarded(cfg, s) <= s.nPast {
      BoundedShiftFits(cfg, s, kv);
    } else {
      LongShiftDoesNotFit(cfg, s, kv);
    }
  }

  lemma ShiftHasNoClash(cfg: Config, s: Slot, kv: Kv)
    requires s.nPast == |s.cache| && Mirrors(kv, s.cache, Effective(s.lora))
    requires 0 <= KeptTokens(cfg, s) && 1 <= Discarded(cfg, s) && KeptTokens(cfg, s) + Discarded(cfg, s) <= s.nPast
    ensures var keep, d := KeptTokens(cfg, s), Discarded(cfg, s);
            NoClash(SeqRm(kv, keep, keep + d), keep + d, s.nPast, -d)
  {
    ShiftMirrors(kv, s.cache, KeptTokens(cfg, s), Discarded(cfg, s), Effective(s.lora));
  }

  lemma ShiftBounds(cfg: Config, s: Slot, kv: Kv)
    requires SlotOk(cfg, s, kv) && NeedsShift(cfg, s) && cfg.ctxShift
    ensures s.phase == Generating && s.nPast == |s.cache| == cfg.nCtx - 1
    ensures 0 <= KeptTokens(cfg, s) && 1 <= Discarded(cfg, s) && KeptTokens(cfg, s) + Discarded(cfg, s) <= s.nPast
    ensures Mirrors(kv, s.cache, Effective(s.lora))
  {
    ShiftIsForFullWindow(cfg, s);
  }

  /** In numbers: `n_discard` tokens are discarded, or half of those behind the kept ones if it is 0; what stays are the
      first `n_keep` tokens, one more with a BOS token, and those behind the discarded block, in order. */
  predicate ShiftsByNumbers(cfg: Config, s: Slot, t: Slot) {
    var k := s.params.nKeep + if cfg.addBos then 1 else 0;
    var d := |s.cache| - |t.cache|;
    && 0 <= k && 1 <= d && k + d <= |s.cache| && s.nPast == |s.cache| && t.nPast == |t.cache|
    && d == (if s.params.nDiscard == 0 then (s.nPast - k) / 2 else s.params.nDiscard)
    && t.cache[..k] == s.cache[..k] && t.cache[k..] == s.cache[k + d..]
    && t.truncated && t == s.(cache := t.cache, nPast := t.nPast, truncated := true)
  }

  /** The shift discards at least one token, keeps exactly the first kept ones and those behind the discarded
      block in order, in the cached tokens and in the cells, where no two meet, and leaves room. */
  lemma ShiftIsRight(cfg: Config, s: Slot, kv: Kv)
    requires SlotOk(cfg, s, kv) && NeedsShift(cfg, s) && cfg.ctxShift
    ensures var t := ShiftedSlot(cfg, s);
            && ShiftsByNumbers(cfg, s, t)
            && (forall p :: p in ShiftedKv(cfg, s, kv) <==> 0 <= p < |t.cache|)
            && (forall p :: 0 <= p < |t.cache| ==> ShiftedKv(cfg, s, kv)[p] == Cell(t.cache[p], Effective(s.lora)))
    ensures var keep, d := KeptTokens(cfg, s), Discarded(cfg, s);
            NoClash(SeqRm(kv, keep, keep + d), keep + d, s.nPast, -d)
  {
    ShiftBounds(cfg, s, kv);
    ShiftHasNoClash(cfg, s, kv);
    BoundedShiftFits(cfg, s, kv);
    var t := ShiftedSlot(cfg, s);
    hide ShiftedKv;
    forall p | 0 <= p < |t.cache|
      ensures p in ShiftedKv(cfg, s, kv) && ShiftedKv(cfg, s, kv)[p] == Cell(t.cache[p], Effective(s.lora))
    {
      assert Holds(ShiftedKv(cfg, s, kv), p, t.cache[p], Effective(t.lora));
    }
  }

  lemma ShiftedSlotOk(cfg: Config, s: Slot, kv: Kv)
    requires SlotOk(cfg, s, kv) && NeedsShift(cfg, s) && cfg.ctxShift
    ensures SlotOk(cfg, ShiftedSlot(cfg, s), ShiftedKv(cfg, s, kv)) && !NeedsShift(cfg, ShiftedSlot(cfg, s))
  {
    ShiftBounds(cfg, s, kv);
    ShiftIsRight(cfg, s, kv);
    var t := ShiftedSlot(cfg, s);
    assert t.phase == Generating && t.params == s.params && t.prompt == s.prompt && t.kind == s.kind
      && t.iBatch == s.iBatch;
    assert PhaseOk(cfg, t);
  }

  /** The check that the source calls redundant is reached, and is what ends a task whose window is full when
      shifting is off: `n_past` never reaches the window size, at which `process_token` would have stopped
      the task with an answer. */
  lemma FullWindowWithoutShift(cfg: Config, w: Work, i: nat)
    requires Shaped(w) && i < |w.slots| && SlotOk(cfg, w.slots[i], w.kv[i]) && Processing(w.slots[i]) && !cfg.ctxShift
    ensures w.slots[i].nPast < cfg.nCtx
    ensures (w.slots[i].phase == Generating && w.slots[i].nPast == cfg.nCtx - 1)
            <==> ShiftStep(cfg, w, i).events == w.events + [Released(i), Sent(w.slots[i].idTask, Error(ShiftDisabled))]
  {
    if NeedsShift(cfg, w.slots[i]) { ShiftIsForFullWindow(cfg, w.slots[i]); }
  }

  ghost predicate WorkOk(cfg: Config, w: Work) {
    Shaped(w) && forall i :: 0 <= i < |w.slots| ==> SlotOk(cfg, w.slots[i], w.kv[i])
  }

  lemma ShiftStepOk(cfg: Config, w: Work, i: nat)
    requires WorkOk(cfg, w) && i < |w.slots|
    ensures WorkOk(cfg, ShiftStep(cfg, w, i)) && !NeedsShift(cfg, ShiftStep(cfg, w, i).slots[i])
  {
    var s := w.slots[i];
    assert SlotOk(cfg, s, w.kv[i]);
    if NeedsShift(cfg, s) && cfg.ctxShift { ShiftedSlotOk(cfg, s, w.kv[i]); }
  }

  lemma {:induction false} ShiftFromOk(cfg: Config, w: Work, i: nat)
    requires WorkOk(cfg, w) && i <= |w.slots|
    requires forall k :: 0 <= k < i ==> !NeedsShift(cfg, w.slots[k])
    ensures var r := ShiftFrom(cfg, w, i);
            WorkOk(cfg, r) && forall k :: 0 <= k < |r.slots| ==> !NeedsShift(cfg, r.slots[k])
    decreases |w.slots| - i
  {
    if i < |w.slots| {
      ShiftStepOk(cfg, w, i);
      ShiftFromOk(cfg, ShiftStep(cfg, w, i), i + 1);
    }
  }
}
