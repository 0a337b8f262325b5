/** What building the batch keeps: cached tokens run ahead of the cells by exactly the slot's entries in the
    batch, entries have consecutive positions, and slots in one batch are compatible. */
module BatchBuilding {
  import opened KvCache
  import opened PromptReuse
  import opened Slots
  import opened UpdateSlots
  import opened ServerInvariant

  /** The number of entries of slot `i` in `batch[k..]`. */
  function Pending(batch: seq<Entry>, i: nat, k: nat): nat
    requires k <= |batch|
    decreases |batch| - k
  {
    if k == |batch| then 0 else (if batch[k].seqId == i then 1 else 0) + Pending(batch, i, k + 1)
  }

  lemma {:induction false} PendingAppend(batch: seq<Entry>, e: Entry, i: nat, k: nat)
    requires k <= |batch|
    ensures Pending(batch + [e], i, k) == Pending(batch, i, k) + if e.seqId == i then 1 else 0
    decreases |batch| - k
  {
    if k == |batch| {
      assert Pending(batch + [e], i, k + 1) == 0;
    } else {
      PendingAppend(batch, e, i, k + 1);
    }
  }

  lemma {:induction false} PendingShrinks(batch: seq<Entry>, i: nat, k: nat, m: nat)
    requires k <= m <= |batch|
    ensures Pending(batch, i, m) <= Pending(batch, i, k)
    decreases m - k
  {
    if k < m { PendingShrinks(batch, i, k + 1, m); }
  }

  /** All the cells of a slot are its cached tokens up to the `r` that are still to be decoded. */
  ghost predicate Exact(cfg: Config, s: Slot, kv: Kv, r: nat) {
    && s.nPast == |s.cache| && r <= s.nPast
    && Mirrors(kv, s.cache[..s.nPast - r], Effective(s.lora))
  }

  ghost predicate Behind(cfg: Config, s: Slot, kv: Kv, r: nat) {
    Exact(cfg, s, kv, r) || (!Tracked(s) && r == 0 && Covers(kv, s.cache, Effective(s.lora)))
  }

  /** The `j`-th entry carries the cached token of its slot at its position, and positions of a slot are
      consecutive up to its `n_past`. */
  predicate EntryOk(slots: seq<Slot>, batch: seq<Entry>, j: nat)
    requires j < |batch|
  {
    var e := batch[j];
    && e.seqId < |slots|
    && var s := slots[e.seqId];
    && e.pos + Pending(batch, e.seqId, j) == s.nPast
    && e.pos < |s.cache| && e.tok == s.cache[e.pos]
  }

  ghost predicate CellsBehind(cfg: Config, w: Work) {
    && Shaped(w)
    && (forall i :: 0 <= i < |w.slots| ==> Behind(cfg, w.slots[i], w.kv[i], Pending(w.batch, i, 0)))
    && (forall j :: 0 <= j < |w.batch| ==> EntryOk(w.slots, w.batch, j))
  }

  /** Every slot with an entry is compatible with the one that sets the pace. */
  predicate Compatible(w: Work) {
    && Shaped(w)
    && (forall j :: 0 <= j < |w.batch| ==> w.batched.Some? && w.batch[j].seqId < |w.slots|
                                           && CanBatch(w.slots[w.batched.value], w.slots[w.batch[j].seqId]))
  }

  /** A slot either has nothing to sample, or points at its own last entry. */
  predicate ReadyOk(s: Slot, batch: seq<Entry>, i: nat) {
    if !IsReady(s) then s.phase != DonePrompt
    else 0 <= s.iBatch < |batch| && batch[s.iBatch].seqId == i && Pending(batch, i, s.iBatch + 1) == 0
  }

  /** The invariant of building the batch. */
  ghost predicate BatchOk(cfg: Config, w: Work) {
    && CellsBehind(cfg, w) && Compatible(w)
    && (forall i :: 0 <= i < |w.slots| ==> PhaseOk(cfg, w.slots[i]) && ReadyOk(w.slots[i], w.batch, i))
  }

  // ------------------------------------------------------------------ one more entry

  lemma PushCells(cfg: Config, w: Work, i: nat, tok: Token, logit: bool)
    requires CellsBehind(cfg, w) && i < |w.slots| && w.slots[i].params.cachePrompt
    requires Exact(cfg, w.slots[i], w.kv[i], Pending(w.batch, i, 0))
    ensures var r := PushToken(w, i, tok, logit);
            CellsBehind(cfg, r) && Exact(cfg, r.slots[i], r.kv[i], Pending(r.batch, i, 0))
  {
    var r := PushToken(w, i, tok, logit);
    var s, e := w.slots[i], Entry(tok, w.slots[i].nPast, i);
    forall k | 0 <= k < |r.slots|
      ensures Behind(cfg, r.slots[k], r.kv[k], Pending(r.batch, k, 0))
      ensures k == i ==> Exact(cfg, r.slots[k], r.kv[k], Pending(r.batch, k, 0))
    {
      PendingAppend(w.batch, e, k, 0);
      if k == i {
        var n := s.nPast - Pending(w.batch, i, 0);
        assert r.slots[i].cache[..n] == s.cache[..n];
      } else {
        assert Behind(cfg, w.slots[k], w.kv[k], Pending(w.batch, k, 0));
      }
    }
    forall j | 0 <= j < |r.batch|
      ensures EntryOk(r.slots, r.batch, j)
    {
      if j < |w.batch| {
        assert EntryOk(w.slots, w.batch, j);
        PendingAppend(w.batch, e, w.batch[j].seqId, j);
      } else {
        assert Pending(r.batch, i, j + 1) == 0;
      }
    }
  }

  lemma PushReady(w: Work, i: nat, tok: Token, logit: bool, k: nat)
    requires Shaped(w) && i < |w.slots| && k < |w.slots| && k != i && ReadyOk(w.slots[k], w.batch, k)
    ensures ReadyOk(PushToken(w, i, tok, logit).slots[k], PushToken(w, i, tok, logit).batch, k)
  {
    if IsReady(w.slots[k]) {
      PendingAppend(w.batch, Entry(tok, w.slots[i].nPast, i), k, w.slots[k].iBatch + 1);
    }
  }

  lemma PushCompatible(w: Work, i: nat, tok: Token, logit: bool)
    requires Compatible(w) && i < |w.slots| && w.batched.Some? && CanBatch(w.slots[w.batched.value], w.slots[i])
    ensures var r := PushToken(w, i, tok, logit);
            Compatible(r) && CanBatch(r.slots[r.batched.value], r.slots[i])
  {
  }

  /** A slot may change in what its cells do not depend on. */
  lemma PutCells(cfg: Config, w: Work, i: nat, t: Slot)
    requires CellsBehind(cfg, w) && i < |w.slots|
    requires var s := w.slots[i]; t.cache == s.cache && t.nPast == s.nPast && t.lora == s.lora
    requires Tracked(t) ==> Exact(cfg, w.slots[i], w.kv[i], Pending(w.batch, i, 0))
    ensures CellsBehind(cfg, Put(w, i, t))
  {
    var p := Put(w, i, t);
    forall j | 0 <= j < |p.batch| ensures EntryOk(p.slots, p.batch, j) { assert EntryOk(w.slots, w.batch, j); }
    forall k | 0 <= k < |p.slots| ensures Behind(cfg, p.slots[k], p.kv[k], Pending(p.batch, k, 0)) {
      assert Behind(cfg, w.slots[k], w.kv[k], Pending(w.batch, k, 0));
    }
  }

  /** A slot that this call has not reached yet. */
  ghost predicate Untouched(cfg: Config, w: Work, k: nat)
    requires Shaped(w) && k < |w.slots|
  {
    SlotOk(cfg, w.slots[k], w.kv[k]) && !NeedsShift(cfg, w.slots[k]) && Pending(w.batch, k, 0) == 0
  }

  lemma UntouchedIsExact(cfg: Config, w: Work, k: nat)
    requires Shaped(w) && k < |w.slots| && Untouched(cfg, w, k)
    ensures Behind(cfg, w.slots[k], w.kv[k], 0)
    ensures Tracked(w.slots[k]) ==> Exact(cfg, w.slots[k], w.kv[k], 0)
  {
    assert w.slots[k].cache[..|w.slots[k].cache|] == w.slots[k].cache;
  }

  // ------------------------------------------------------------------ sampled tokens

  function SampledPut(w: Work, i: nat): Work
    requires Shaped(w) && i < |w.slots|
  {
    Put(Joined(w, i), i, w.slots[i].(iBatch := |w.batch|))
  }

  lemma SampledCells(cfg: Config, w: Work, i: nat)
    requires BatchOk(cfg, w) && i < |w.slots| && Untouched(cfg, w, i)
    requires w.slots[i].phase == Generating && Joins(w, i)
    ensures CellsBehind(cfg, SampledStep(w, i)) && Compatible(SampledStep(w, i))
  {
    var s := w.slots[i];
    var j := Joined(w, i);
    UntouchedIsExact(cfg, w, i);
    assert CellsBehind(cfg, j);
    assert SampledStep(w, i) == PushToken(SampledPut(w, i), i, s.sampled, true);
    PutCells(cfg, j, i, s.(iBatch := |w.batch|));
    hide SampledStep, PushToken, CellsBehind, Compatible;
    PushCells(cfg, SampledPut(w, i), i, s.sampled, true);
    PushCompatible(SampledPut(w, i), i, s.sampled, true);
  }

  /** The step as two: the slot is pointed at the batch's end, and its token put there. */
  lemma SampledStepPuts(w: Work, i: nat)
    requires Shaped(w) && i < |w.slots| && w.slots[i].phase == Generating && Joins(w, i)
    ensures var s, r := w.slots[i], SampledStep(w, i);
            && r == PushToken(SampledPut(w, i), i, s.sampled, true)
            && r.slots == w.slots[i := Grown(s.(iBatch := |w.batch|), s.sampled)] && r.kv == w.kv
            && r.batch == w.batch + [Entry(s.sampled, s.nPast, i)]
  {
  }

  lemma SampledReady(cfg: Config, w: Work, i: nat, k: nat)
    requires BatchOk(cfg, w) && i < |w.slots| && k < |w.slots| && Untouched(cfg, w, i)
    requires w.slots[i].phase == Generating && Joins(w, i)
    ensures var r := SampledStep(w, i); PhaseOk(cfg, r.slots[k]) && ReadyOk(r.slots[k], r.batch, k)
  {
    var s, r := w.slots[i], SampledStep(w, i);
    SampledStepPuts(w, i);
    assert PhaseOk(cfg, w.slots[k]) && ReadyOk(w.slots[k], w.batch, k);
    if k != i {
      assert ReadyOk(SampledPut(w, i).slots[k], SampledPut(w, i).batch, k);
      hide SampledStep, PushToken, BatchOk, ReadyOk, PhaseOk, Untouched;
      PushReady(SampledPut(w, i), i, s.sampled, true, k);
    } else {
      hide SampledStep, PushToken, BatchOk;
      assert Pending(r.batch, i, |r.batch|) == 0;
    }
  }

  lemma SampledLeaves(cfg: Config, w: Work, i: nat, k: nat)
    requires Shaped(w) && i < |w.slots| && k < |w.slots| && k != i && Untouched(cfg, w, k)
    requires w.slots[i].phase == Generating && Joins(w, i)
    ensures Untouched(cfg, SampledStep(w, i), k)
  {
    SampledStepPuts(w, i);
    hide SampledStep, PushToken;
    PendingAppend(w.batch, Entry(w.slots[i].sampled, w.slots[i].nPast, i), k, 0);
  }

  lemma SampledStepOk(cfg: Config, w: Work, i: nat)
    requires BatchOk(cfg, w) && i < |w.slots| && Untouched(cfg, w, i)
    ensures BatchOk(cfg, SampledStep(w, i))
    ensures forall k :: 0 <= k < |w.slots| && k != i && Untouched(cfg, w, k) ==> Untouched(cfg, SampledStep(w, i), k)
    ensures SampledStep(w, i).slots[i].phase == w.slots[i].phase
    ensures w.slots[i].phase != Generating ==> SampledStep(w, i) == w
    ensures |SampledStep(w, i).batch| <= |w.batch| + 1
  {
    if w.slots[i].phase == Generating && Joins(w, i) {
      SampledStepPuts(w, i);
      hide SampledStep, PushToken, CellsBehind, Compatible, PhaseOk, ReadyOk, Untouched;
      SampledCells(cfg, w, i);
      forall k | 0 <= k < |w.slots|
        ensures PhaseOk(cfg, SampledStep(w, i).slots[k])
                && ReadyOk(SampledStep(w, i).slots[k], SampledStep(w, i).batch, k)
        ensures k != i && Untouched(cfg, w, k) ==> Untouched(cfg, SampledStep(w, i), k)
      {
        SampledReady(cfg, w, i, k);
        if k != i && Untouched(cfg, w, k) { SampledLeaves(cfg, w, i, k); }
      }
    }
  }

  /** After the first pass: the batch is sound, and slots without a sampled token are as they were. */
  ghost predicate SampledOk(cfg: Config, w: Work, i: nat) {
    && BatchOk(cfg, w)
    && |w.batch| <= i
    && (forall k :: 0 <= k < |w.slots| && (k >= i || w.slots[k].phase != Generating) ==> Untouched(cfg, w, k))
  }

  lemma SampledStepKeeps(cfg: Config, w: Work, i: nat)
    requires i < |w.slots| && SampledOk(cfg, w, i)
    ensures SampledOk(cfg, SampledStep(w, i), i + 1)
  {
    SampledStepOk(cfg, w, i);
    var r := SampledStep(w, i);
    forall k | 0 <= k < |r.slots| && (k >= i + 1 || r.slots[k].phase != Generating)
      ensures Untouched(cfg, r, k)
    {
      if k != i { assert r.slots[k] == w.slots[k]; }
    }
  }

  lemma {:induction false} SampledFromOk(cfg: Config, w: Work, i: nat)
    requires i <= |w.slots| && SampledOk(cfg, w, i)
    ensures SampledOk(cfg, SampledFrom(w, i), |w.slots|)
    decreases |w.slots| - i
  {
    if i < |w.slots| {
      SampledStepKeeps(cfg, w, i);
      SampledFromOk(cfg, SampledStep(w, i), i + 1);
    }
  }

  // ------------------------------------------------------------------ opening a prompt

  /** A slot that takes in its prompt: its cached tokens are the prompt up to `n_past`. */
  predicate Feeding(cfg: Config, s: Slot) {
    && s.phase == ProcessingPrompt && s.params.cachePrompt
    && s.nPromptTokens == |s.prompt| && s.nPast <= |s.prompt| && s.cache == s.prompt[..s.nPast]
    && (cfg.ctxShift ==> DiscardOk(cfg, s.params, |s.prompt|))
    && (NonCausal(s) ==> s.nPromptTokens <= cfg.nBatch)
    && (!NonCausal(s) ==> s.nPromptTokens < cfg.nCtx && 0 <= s.params.nKeep <= cfg.nCtx - 4)
  }

  /** A slot before the trim: the cells up to `n_past` are those of the cached tokens, and these are the prompt's. */
  ghost predicate Trimmable(cfg: Config, s: Slot, kv: Kv) {
    && s.nPast < |s.prompt| && s.nPast <= |s.cache|
    && Feeding(cfg, s.(cache := s.cache[..s.nPast]))
    && Mirrors(SeqRm(kv, s.nPast, -1), s.cache[..s.nPast], Effective(s.lora))
  }

  lemma OpenedFits(cfg: Config, s: Slot, kv: Kv)
    requires PhaseOk(cfg, s) && s.phase == Started && OpenPrompt(cfg, s, kv).Opened?
    ensures var t := OpenPrompt(cfg, s, kv).slot;
            && t.nPast < |t.prompt| && t.nPast <= |t.cache|
            && t.phase == ProcessingPrompt && t.params.cachePrompt && t.nPromptTokens == |t.prompt|
            && t.kind == s.kind && t.lora == s.lora
            && (cfg.ctxShift ==> DiscardOk(cfg, t.params, |t.prompt|))
            && (NonCausal(t) ==> t.nPast == 0 && t.nPromptTokens <= cfg.nBatch)
            && (!NonCausal(t) ==> t.nPromptTokens < cfg.nCtx && 0 <= t.params.nKeep <= cfg.nCtx - 4)
  {
    if !NonCausal(s) && |s.prompt| >= cfg.nCtx {
      TruncationFits(s.prompt, ClampKeep(s.params.nKeep, |s.prompt|, cfg.nCtx), cfg.nCtx);
    }
  }

  /** An opened prompt starts right behind what is reused, which is never the whole prompt. */
  lemma OpenedIsTrimmable(cfg: Config, s: Slot, kv: Kv)
    requires SlotOk(cfg, s, kv) && s.phase == Started && OpenPrompt(cfg, s, kv).Opened?
    ensures Trimmable(cfg, OpenPrompt(cfg, s, kv).slot, OpenPrompt(cfg, s, kv).kv)
  {
    OpenedFits(cfg, s, kv);
    var t := OpenPrompt(cfg, s, kv).slot;
    if NonCausal(s) {
      assert t.cache[..0] == [] == t.prompt[..0];
    } else {
      var r := Reused(s.cache, kv, t.prompt, cfg.nCacheReuse);
      assert OpenPrompt(cfg, s, kv) == Opened(t, r.kv) && t.cache == r.cache && t.nPast <= r.nPast;
      ReuseIsRight(s.cache, kv, t.prompt, cfg.nCacheReuse, t.nPast, Effective(s.lora));
    }
  }

  /** A slot in the middle of its prompt, or one that waits, is trimmable too. */
  lemma ResumedIsTrimmable(cfg: Config, s: Slot, kv: Kv)
    requires SlotOk(cfg, s, kv) && s.phase == ProcessingPrompt
    ensures Trimmable(cfg, s, kv)
  {
    assert s.cache[..s.nPast] == s.prompt[..s.nPast] by {
      if NonCausal(s) { assert s.cache[..0] == [] == s.prompt[..0]; }
    }
    TrimMirrors(kv, s.cache, s.nPast, Effective(s.lora));
  }

  /** Slot `i` gets new cached tokens and new cells while it has no entry in the batch. */
  lemma ReplaceCells(cfg: Config, w: Work, i: nat, t: Slot, kv: Kv)
    requires CellsBehind(cfg, w) && i < |w.slots| && Pending(w.batch, i, 0) == 0 && Exact(cfg, t, kv, 0)
    ensures CellsBehind(cfg, Put(w, i, t).(kv := w.kv[i := kv]))
  {
    var p := Put(w, i, t).(kv := w.kv[i := kv]);
    forall j | 0 <= j < |p.batch|
      ensures EntryOk(p.slots, p.batch, j)
    {
      assert EntryOk(w.slots, w.batch, j);
      PendingShrinks(w.batch, i, 0, j);
    }
    forall k | 0 <= k < |p.slots| ensures Behind(cfg, p.slots[k], p.kv[k], Pending(p.batch, k, 0)) {
      assert Behind(cfg, w.slots[k], w.kv[k], Pending(w.batch, k, 0));
    }
  }
}
