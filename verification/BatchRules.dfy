/** What goes into a batch, told from the slots alone: the sampled tokens of slots that are alike come first, then
    prompts until nothing more fits; and for which entries logits are asked. */
module BatchRules {
  import opened Wrappers
  import opened KvCache
  import opened Slots
  import opened UpdateSlots
  import opened ServerInvariant
  import opened BatchBuilding
  import opened PromptLoop
  import opened Adapters
  import opened BuildSteps
  import opened ServerRuns

  /** Both want embeddings or scores or neither does, and their adapters have the same effect. */
  predicate Alike(s: Slot, t: Slot) {
    && (s.kind == Embedding || s.kind == Rerank <==> t.kind == Embedding || t.kind == Rerank)
    && Effective(s.lora) == Effective(t.lora)
  }

  // ------------------------------------------------------------------ sampled tokens

  /** The first generating slot, or the number of slots. */
  function FirstGenerating(slots: seq<Slot>): (p: nat)
    ensures p <= |slots| && (p < |slots| ==> slots[p].phase == Generating)
    ensures forall k :: 0 <= k < p ==> slots[k].phase != Generating
  {
    if slots == [] then 0 else
    var front := slots[..|slots| - 1];
    var p := FirstGenerating(front);
    if p < |front| || slots[|front|].phase == Generating then p else |slots|
  }

  /** The slot generates, and is like the first one that does. */
  predicate Contributes(slots: seq<Slot>, i: nat)
    requires i < |slots|
  {
    slots[i].phase == Generating && Alike(slots[FirstGenerating(slots)], slots[i])
  }

  /** The sampled tokens of the first `n` slots, each at the slot's `n_past`. */
  function TokenEntries(slots: seq<Slot>, n: nat): seq<Entry>
    requires n <= |slots|
  {
    if n == 0 then [] else
    TokenEntries(slots, n - 1)
    + if Contributes(slots, n - 1) then [Entry(slots[n - 1].sampled, slots[n - 1].nPast, n - 1)] else []
  }

  /** The pass has come to slot `i`; `were` are the slots before it. */
  ghost predicate TokensUpTo(were: seq<Slot>, v: Work, i: nat) {
    && Shaped(v) && i <= |were| == |v.slots| && v.batch == TokenEntries(were, i)
    && (v.batched == if FirstGenerating(were) < i then Some(FirstGenerating(were)) else None)
    && (forall k :: 0 <= k < |were| ==>
          v.slots[k].kind == were[k].kind && v.slots[k].lora == were[k].lora && v.slots[k].phase == were[k].phase)
    && (forall k :: i <= k < |were| ==> v.slots[k] == were[k])
  }

  lemma TokenStep(were: seq<Slot>, v: Work, i: nat)
    requires TokensUpTo(were, v, i) && i < |were|
    ensures TokensUpTo(were, SampledStep(v, i), i + 1)
  {
    var p := FirstGenerating(were);
    if were[i].phase == Generating && p < i {
      assert Joins(v, i) <==> Alike(were[p], were[i]);
    }
  }

  lemma {:induction false} TokensAreFirst(were: seq<Slot>, v: Work, i: nat)
    requires TokensUpTo(were, v, i)
    ensures TokensUpTo(were, SampledFrom(v, i), |were|)
    decreases |were| - i
  {
    if i < |were| {
      TokenStep(were, v, i);
      hide TokensUpTo, SampledStep;
      assert Shaped(v) && |v.slots| == |were| by { TokensShape(were, v, i); }
      assert SampledFrom(v, i) == SampledFrom(SampledStep(v, i), i + 1);
      TokensAreFirst(were, SampledStep(v, i), i + 1);
    }
  }

  lemma TokensShape(were: seq<Slot>, v: Work, i: nat)
    requires TokensUpTo(were, v, i)
    ensures Shaped(v) && |v.slots| == |were|
  {
  }

  // ------------------------------------------------------------------ the token loop

  /** `r` is `w` with prompt tokens of slot `i` added, in order from position `from` on, all with the same wish for
      logits. */
  ghost predicate Adds(w: Work, r: Work, i: nat, prompt: seq<Token>, from: nat, logit: bool) {
    && Shaped(w) && Shaped(r) && w.batch <= r.batch && w.logits <= r.logits
    && (r.batch == w.batch || from + |r.batch| - |w.batch| <= |prompt|)
    && (forall j :: |w.batch| <= j < |r.batch| ==>
          r.batch[j] == Entry(prompt[from + j - |w.batch|], from + j - |w.batch|, i) && r.logits[j] == logit)
  }

  lemma AddsAgain(w: Work, v: Work, r: Work, i: nat, prompt: seq<Token>, from: nat, logit: bool)
    requires Adds(w, v, i, prompt, from, logit) && |v.batch| == |w.batch| + 1
    requires Adds(v, r, i, prompt, from + 1, logit)
    ensures Adds(w, r, i, prompt, from, logit)
  {
    var n := |w.batch|;
    assert v.batch[..n] == w.batch && r.batch[..n + 1] == v.batch;
    assert v.logits[..n] == w.logits && r.logits[..n + 1] == v.logits;
    assert r.batch[..n] == w.batch && r.logits[..n] == w.logits;
    assert r.batch[n] == v.batch[n] && r.logits[n] == v.logits[n];
  }

  lemma {:induction false} AddTokensIs(cfg: Config, w: Work, i: nat)
    requires Shaped(w) && i < |w.slots|
    ensures var s := w.slots[i];
            Adds(w, AddTokens(cfg, w, i), i, s.prompt, s.nPast, s.kind == Embedding && cfg.noPooling)
    decreases cfg.nBatch - |w.batch|
  {
    var s := w.slots[i];
    if Feeds(cfg, w, s) {
      var logit := s.kind == Embedding && cfg.noPooling;
      var v := PushToken(w, i, s.prompt[s.nPast], logit);
      assert Adds(w, v, i, s.prompt, s.nPast, logit) && v.slots[i].prompt == s.prompt && v.slots[i].kind == s.kind;
      assert AddTokens(cfg, w, i) == AddTokens(cfg, v, i);
      hide Adds, AddTokens;
      AddTokensIs(cfg, v, i);
      AddsAgain(w, v, AddTokens(cfg, v, i), i, s.prompt, s.nPast, logit);
    }
  }

  /** A slot's turn, seen from the batch: only entries of the slot are added. */
  ghost predicate Appends(cfg: Config, w: Work, r: Work, i: nat) {
    && Shaped(w) && Shaped(r) && i < |w.slots| == |r.slots|
    && r.slots == w.slots[i := r.slots[i]] && Alike(w.slots[i], r.slots[i])
    && (r.slots[i].kind == Embedding <==> w.slots[i].kind == Embedding)
    && (r.batched == w.batched || (w.batched.None? && r.batched == Some(i)))
    && w.batch <= r.batch
    && (forall j :: |w.batch| <= j < |r.batch| ==> r.batch[j].seqId == i)
  }

  /** The logits of the added entries: all if embeddings are not pooled, and those of the last one if the prompt is
      in. */
  ghost predicate AppendsLogits(cfg: Config, w: Work, r: Work, i: nat) {
    && Shaped(w) && Shaped(r) && i < |w.slots| == |r.slots| && |w.batch| <= |r.batch|
    && (forall j :: 0 <= j < |w.batch| ==> r.logits[j] == w.logits[j])
    && (forall j :: |w.batch| <= j < |r.batch| ==>
          (r.logits[j] <==> (r.slots[i].kind == Embedding && cfg.noPooling)
                            || (IsReady(r.slots[i]) && r.slots[i].iBatch == j)))
    && (IsReady(r.slots[i]) ==> |w.batch| <= r.slots[i].iBatch < |r.batch|)
  }

  /** A slot whose prompt is not in yet waits because the batch is full, because it is not like the slot that sets the
      pace, or because its prompt must be taken in as a whole and does not fit. */
  ghost predicate WaitsRightly(cfg: Config, w: Work, i: nat)
    requires Shaped(w) && i < |w.slots|
  {
    var s := w.slots[i];
    s.phase == Started || s.phase == ProcessingPrompt ==>
      || |w.batch| >= cfg.nBatch
      || (w.batched.Some? && !Alike(w.slots[w.batched.value], s))
      || ((s.kind == Embedding || s.kind == Rerank) && |w.batch| + |s.prompt| > cfg.nBatch)
  }

  lemma IngestRules(cfg: Config, o: Oracle, w: Work, i: nat)
    requires Shaped(w) && i < |w.slots| && w.slots[i].phase == ProcessingPrompt && PromptOk(cfg, w.slots[i])
    ensures var r := IngestTurn(cfg, o, w, i).work;
            Appends(cfg, w, r, i) && AppendsLogits(cfg, w, r, i) && WaitsRightly(cfg, r, i)
  {
    var s := w.slots[i];
    if !(NonCausal(s) && |w.batch| + s.nPromptTokens > cfg.nBatch) {
      var t := Trimmed(w, i, o.removes(i));
      TrimmedShape(cfg, w, i, o.removes(i));
      hide Trimmed;
      FedRules(cfg, t, i);
    }
  }

  lemma FedRules(cfg: Config, t: Work, i: nat)
    requires Shaped(t) && i < |t.slots| && t.slots[i].phase == ProcessingPrompt && PromptOk(cfg, t.slots[i])
    ensures var r := PromptDone(AddTokens(cfg, t, i), i);
            Appends(cfg, t, r, i) && AppendsLogits(cfg, t, r, i) && WaitsRightly(cfg, r, i)
  {
    AddTokensIs(cfg, t, i);
    AddTokensShape(cfg, t, i);
    hide AddTokens, PromptDone, Appends, AppendsLogits, WaitsRightly, Adds, Feeds, PromptOk;
    DoneAppends(cfg, t, AddTokens(cfg, t, i), i);
    DoneHasLogits(cfg, t, AddTokens(cfg, t, i), i);
    DoneWaits(cfg, t, AddTokens(cfg, t, i), i);
  }

  /** `a` is `t` with prompt tokens of slot `i` taken in. */
  predicate TokensTaken(t: Work, a: Work, i: nat)
    requires i < |t.slots| == |a.slots|
  {
    && a.slots == t.slots[i := t.slots[i].(nPast := a.slots[i].nPast, cache := a.slots[i].cache)]
    && a.batched == t.batched
  }

  lemma DoneAppends(cfg: Config, t: Work, a: Work, i: nat)
    requires i < |t.slots| == |a.slots| && TokensTaken(t, a, i)
    requires Adds(t, a, i, t.slots[i].prompt, t.slots[i].nPast, t.slots[i].kind == Embedding && cfg.noPooling)
    ensures Appends(cfg, t, PromptDone(a, i), i)
  {
  }

  lemma DoneHasLogits(cfg: Config, t: Work, a: Work, i: nat)
    requires i < |t.slots| == |a.slots| && TokensTaken(t, a, i) && t.slots[i].phase == ProcessingPrompt
    requires Adds(t, a, i, t.slots[i].prompt, t.slots[i].nPast, t.slots[i].kind == Embedding && cfg.noPooling)
    requires t.slots[i].nPast < t.slots[i].nPromptTokens && a.slots[i].nPast == t.slots[i].nPast + |a.batch| - |t.batch|
    ensures AppendsLogits(cfg, t, PromptDone(a, i), i)
  {
  }

  lemma DoneWaits(cfg: Config, t: Work, a: Work, i: nat)
    requires Shaped(a) && i < |t.slots| == |a.slots| && TokensTaken(t, a, i) && PromptOk(cfg, t.slots[i])
    requires t.slots[i].phase == ProcessingPrompt && !Feeds(cfg, a, a.slots[i]) && |a.batch| >= |t.batch|
    requires a.slots[i].nPast == t.slots[i].nPast + |a.batch| - |t.batch|
    requires a.slots[i].nPast > t.slots[i].nPast ==> a.slots[i].nPast <= t.slots[i].nPromptTokens
    ensures WaitsRightly(cfg, PromptDone(a, i), i)
  {
  }

  // ------------------------------------------------------------------ one turn

  /** Opening a prompt changes the slot and its cells only. */
  lemma OpenedAppends(cfg: Config, w: Work, v: Work, r: Work, i: nat, t: Slot)
    requires Shaped(w) && Shaped(v) && i < |w.slots| && Joins(w, i)
    requires v.slots == w.slots[i := t] && v.batch == w.batch && v.logits == w.logits
    requires v.batched == Joined(w, i).batched
    requires t.kind == w.slots[i].kind && t.lora == w.slots[i].lora
    requires Appends(cfg, v, r, i) && AppendsLogits(cfg, v, r, i)
    ensures Appends(cfg, w, r, i) && AppendsLogits(cfg, w, r, i)
  {
  }

  lemma OpenRules(cfg: Config, o: Oracle, w: Work, i: nat)
    requires Shaped(w) && i < |w.slots| && w.slots[i].phase == Started && Joins(w, i)
    ensures var r := PromptTurn(cfg, o, w, i).work;
            Appends(cfg, w, r, i) && AppendsLogits(cfg, w, r, i) && WaitsRightly(cfg, r, i)
  {
    var s, j, r := w.slots[i], Joined(w, i), PromptTurn(cfg, o, w, i).work;
    OpenShape(cfg, s, w.kv[i]);
    OpenKeepsKind(cfg, s, w.kv[i]);
    hide OpenPrompt, IngestTurn, PromptOk;
    match OpenPrompt(cfg, s, w.kv[i])
    case Refused(_, _) =>
    case Opened(t, kv) =>
      var v := Put(j, i, t).(kv := j.kv[i := kv]);
      assert r == IngestTurn(cfg, o, v, i).work && t.phase == ProcessingPrompt;
      assert v.slots == w.slots[i := t] && v.batch == w.batch && v.logits == w.logits && v.batched == j.batched;
      hide PromptTurn, WaitsRightly, Appends, AppendsLogits;
      IngestRules(cfg, o, v, i);
      OpenedAppends(cfg, w, v, r, i, t);
  }

  lemma OpenKeepsKind(cfg: Config, s: Slot, kv: Kv)
    ensures OpenPrompt(cfg, s, kv).slot.kind == s.kind && OpenPrompt(cfg, s, kv).slot.lora == s.lora
  {
  }

  lemma TurnRules(cfg: Config, o: Oracle, w: Work, i: nat)
    requires Shaped(w) && i < |w.slots| && PromptOk(cfg, w.slots[i])
    requires IsReady(w.slots[i]) ==> w.slots[i].iBatch < |w.batch|
    ensures var r := PromptTurn(cfg, o, w, i).work;
            && Appends(cfg, w, r, i) && WaitsRightly(cfg, r, i)
            && (if HasPrompt(w.slots[i]) then AppendsLogits(cfg, w, r, i)
                else r.slots == w.slots && r.batch == w.batch && r.logits == w.logits)
  {
    var s := w.slots[i];
    if HasPrompt(s) && Joins(w, i) {
      if s.phase == Started {
        OpenRules(cfg, o, w, i);
      } else {
        IngestRules(cfg, o, Joined(w, i), i);
      }
    }
  }

  // ------------------------------------------------------------------ the loop over slots

  /** The loop has come to slot `i`. */
  ghost predicate WaitUpTo(cfg: Config, w: Work, i: nat) {
    && Shaped(w) && i <= |w.slots|
    && (forall k :: 0 <= k < i ==> WaitsRightly(cfg, w, k))
    && (forall k :: i <= k < |w.slots| ==> Placed(cfg, w.slots[k], |w.batch|))
  }

  lemma WaitOn(cfg: Config, w: Work, r: Work, i: nat, k: nat)
    requires Appends(cfg, w, r, i) && k < |w.slots| && k != i && WaitsRightly(cfg, w, k)
    ensures WaitsRightly(cfg, r, k)
  {
  }

  lemma TurnWaits(cfg: Config, o: Oracle, w: Work, i: nat, r: Work)
    requires WaitUpTo(cfg, w, i) && i < |w.slots| && r == PromptTurn(cfg, o, w, i).work
    ensures WaitUpTo(cfg, r, i + 1) && |r.slots| == |w.slots|
  {
    assert Placed(cfg, w.slots[i], |w.batch|);
    TurnRules(cfg, o, w, i);
    hide PromptTurn, WaitsRightly;
    forall k | 0 <= k < i + 1 ensures WaitsRightly(cfg, r, k) {
      if k < i { WaitOn(cfg, w, r, i, k); }
    }
    forall k | i + 1 <= k < |r.slots| ensures Placed(cfg, r.slots[k], |r.batch|) {
      assert Placed(cfg, w.slots[k], |w.batch|) && r.slots[k] == w.slots[k];
    }
  }

  lemma {:induction false} PromptsWait(cfg: Config, o: Oracle, w: Work, i: nat)
    requires WaitUpTo(cfg, w, i)
    ensures var r := PromptsFrom(cfg, o, w, i); forall k :: 0 <= k < |r.slots| ==> WaitsRightly(cfg, r, k)
    decreases |w.slots| - i
  {
    PromptsStop(cfg, o, w);
    if i < |w.slots| {
      hide PromptsFrom, PromptTurn, WaitUpTo;
      WaitShape(cfg, w, i);
      var next, full := PromptsUnfold(cfg, o, w, i);
      TurnWaits(cfg, o, w, i, next);
      if full {
        FullWaits(cfg, next);
      } else {
        PromptsWait(cfg, o, next, i + 1);
      }
    }
  }

  lemma WaitShape(cfg: Config, w: Work, i: nat)
    requires WaitUpTo(cfg, w, i)
    ensures Shaped(w) && i <= |w.slots|
  {
  }

  lemma FullWaits(cfg: Config, w: Work)
    requires Shaped(w) && |w.batch| >= cfg.nBatch
    ensures forall k :: 0 <= k < |w.slots| ==> WaitsRightly(cfg, w, k)
  {
  }

  // ------------------------------------------------------------------ a full batch

  /** A turn that adds an entry comes to the check for a full batch. */
  lemma GrowingTurnIsChecked(cfg: Config, o: Oracle, w: Work, i: nat)
    requires Shaped(w) && i < |w.slots|
    ensures PromptTurn(cfg, o, w, i).work.batch == w.batch || PromptTurn(cfg, o, w, i).full
  {
    hide AddTokens, OpenPrompt;
  }

  /** What the loop does from slot `i` on, if it fills the batch: the entries are of slots from `i` on, and the slots
      behind the one of the last entry are left alone. */
  ghost predicate StopsWhenFull(cfg: Config, w: Work, r: Work, i: nat) {
    && Shaped(w) && Shaped(r) && |r.slots| == |w.slots| && w.batch <= r.batch
    && (forall j :: |w.batch| <= j < |r.batch| ==> i <= r.batch[j].seqId)
    && (|r.batch| >= cfg.nBatch && |r.batch| > |w.batch| ==>
          forall k :: r.batch[|r.batch| - 1].seqId < k < |w.slots| ==> r.slots[k] == w.slots[k])
  }

  lemma TurnStops(cfg: Config, w: Work, v: Work, i: nat)
    requires Appends(cfg, w, v, i)
    ensures StopsWhenFull(cfg, w, v, i)
  {
  }

  lemma StopsLater(cfg: Config, w: Work, v: Work, r: Work, i: nat)
    requires Appends(cfg, w, v, i) && StopsWhenFull(cfg, v, r, i + 1)
    requires v.batch == w.batch || |v.batch| < cfg.nBatch
    ensures StopsWhenFull(cfg, w, r, i)
  {
    assert forall j :: |w.batch| <= j < |r.batch| ==> i <= r.batch[j].seqId by {
      forall j | |w.batch| <= j < |r.batch| ensures i <= r.batch[j].seqId {
        if j < |v.batch| { assert r.batch[j] == v.batch[j]; }
      }
    }
  }

  lemma {:induction false} PromptsStopWhenFull(cfg: Config, o: Oracle, w: Work, i: nat)
    requires WaitUpTo(cfg, w, i)
    ensures StopsWhenFull(cfg, w, PromptsFrom(cfg, o, w, i), i)
    decreases |w.slots| - i
  {
    hide *;
    WaitShape(cfg, w, i);
    if i == |w.slots| {
      PromptsStop(cfg, o, w);
      EndStops(cfg, w);
    } else {
      var next, full := PromptsUnfold(cfg, o, w, i);
      WaitPlaced(cfg, w, i);
      TurnRules(cfg, o, w, i);
      TurnWaits(cfg, o, w, i, next);
      if full {
        TurnStops(cfg, w, next, i);
      } else {
        GrowingTurnIsChecked(cfg, o, w, i);
        PromptsStopWhenFull(cfg, o, next, i + 1);
        StopsLater(cfg, w, next, PromptsFrom(cfg, o, next, i + 1), i);
      }
    }
  }

  lemma EndStops(cfg: Config, w: Work)
    requires Shaped(w)
    ensures StopsWhenFull(cfg, w, w, |w.slots|)
  {
  }

  lemma WaitPlaced(cfg: Config, w: Work, i: nat)
    requires WaitUpTo(cfg, w, i) && i < |w.slots|
    ensures PromptOk(cfg, w.slots[i]) && (IsReady(w.slots[i]) ==> w.slots[i].iBatch < |w.batch|)
  {
    assert Placed(cfg, w.slots[i], |w.batch|);
  }

  // ------------------------------------------------------------------ logits

  /** Logits are asked for exactly the entries that are sampled from, and for all of an embedding task that is not
      pooled. */
  ghost predicate LogitsFit(cfg: Config, w: Work) {
    Shaped(w) && forall j :: 0 <= j < |w.batch| ==> w.batch[j].seqId < |w.slots| && LogitFits(cfg, w, j)
  }

  ghost predicate LogitFits(cfg: Config, w: Work, j: nat)
    requires Shaped(w) && j < |w.batch| && w.batch[j].seqId < |w.slots|
  {
    var s := w.slots[w.batch[j].seqId];
    w.logits[j] <==> (s.kind == Embedding && cfg.noPooling) || (IsReady(s) && s.iBatch == j)
  }

  /** No entry is the slot's. */
  ghost predicate HasNoEntry(w: Work, i: nat) { forall j :: 0 <= j < |w.batch| ==> w.batch[j].seqId != i }

  lemma TurnLogits(cfg: Config, w: Work, r: Work, i: nat)
    requires LogitsFit(cfg, w) && Appends(cfg, w, r, i) && AppendsLogits(cfg, w, r, i) && HasNoEntry(w, i)
    ensures LogitsFit(cfg, r)
  {
    forall j | 0 <= j < |r.batch| ensures r.batch[j].seqId < |r.slots| && LogitFits(cfg, r, j) {
      if j < |w.batch| { assert w.batch[j].seqId < |w.slots| && LogitFits(cfg, w, j); }
    }
  }

  /** The pass over sampled tokens has come to slot `i`. */
  ghost predicate TokenLogits(cfg: Config, w: Work, i: nat) {
    && LogitsFit(cfg, w) && i <= |w.slots|
    && (forall k :: i <= k < |w.slots| ==> HasNoEntry(w, k) && w.slots[k].phase != DonePrompt)
    && (forall k :: 0 <= k < |w.slots| && w.slots[k].phase == Generating ==> w.slots[k].kind != Embedding)
  }

  lemma TokenStepLogits(cfg: Config, w: Work, i: nat)
    requires TokenLogits(cfg, w, i) && i < |w.slots|
    ensures TokenLogits(cfg, SampledStep(w, i), i + 1)
  {
    var r := SampledStep(w, i);
    forall j | 0 <= j < |r.batch| ensures r.batch[j].seqId < |r.slots| && LogitFits(cfg, r, j) {
      if j < |w.batch| { assert w.batch[j].seqId < |w.slots| && LogitFits(cfg, w, j); }
    }
  }

  lemma {:induction false} TokensLogits(cfg: Config, w: Work, i: nat)
    requires TokenLogits(cfg, w, i)
    ensures LogitsFit(cfg, SampledFrom(w, i))
    decreases |w.slots| - i
  {
    if i < |w.slots| {
      TokenStepLogits(cfg, w, i);
      assert SampledFrom(w, i) == SampledFrom(SampledStep(w, i), i + 1);
      hide SampledStep, LogitsFit;
      TokensLogits(cfg, SampledStep(w, i), i + 1);
    }
  }

  // ------------------------------------------------------------------ every batch

  lemma {:induction false} NoEntryOf(batch: seq<Entry>, i: nat, k: nat)
    requires k <= |batch| && Pending(batch, i, k) == 0
    ensures forall j :: k <= j < |batch| ==> batch[j].seqId != i
    decreases |batch| - k
  {
    if k < |batch| { NoEntryOf(batch, i, k + 1); }
  }

  /** The prompt loop over the work `b` has come to slot `i`: behind what was in the batch are entries of slots with a
      prompt, and the other slots are as they were. */
  ghost predicate Extends(b: Work, v: Work, i: nat) {
    && |v.slots| == |b.slots| && b.batch <= v.batch
    && (forall j :: |b.batch| <= j < |v.batch| ==> v.batch[j].seqId < |b.slots| && HasPrompt(b.slots[v.batch[j].seqId]))
    && (forall k :: i <= k < |b.slots| ==> v.slots[k] == b.slots[k])
    && (forall k :: 0 <= k < |b.slots| && !HasPrompt(b.slots[k]) ==> v.slots[k] == b.slots[k])
  }

  lemma ExtendsOn(cfg: Config, b: Work, v: Work, r: Work, i: nat)
    requires Extends(b, v, i) && Appends(cfg, v, r, i)
    requires HasPrompt(v.slots[i]) || (r.slots == v.slots && r.batch == v.batch)
    ensures Extends(b, r, i + 1)
  {
    forall j | |b.batch| <= j < |r.batch| ensures r.batch[j].seqId < |b.slots| && HasPrompt(b.slots[r.batch[j].seqId]) {
      if j < |v.batch| { assert r.batch[j] == v.batch[j]; }
    }
  }

  ghost predicate PromptsUpTo(cfg: Config, b: Work, v: Work, i: nat) {
    PromptsOk(cfg, v, i) && LogitsFit(cfg, v) && Extends(b, v, i)
  }

  lemma TurnIsNext(cfg: Config, o: Oracle, b: Work, v: Work, i: nat, r: Work)
    requires PromptsUpTo(cfg, b, v, i) && i < |v.slots| && r == PromptTurn(cfg, o, v, i).work
    ensures PromptsUpTo(cfg, b, r, i + 1)
  {
    assert ReadyOk(v.slots[i], v.batch, i) && PhaseOk(cfg, v.slots[i]);
    PhaseIsPromptOk(cfg, v.slots[i]);
    hide PromptTurn, PromptsOk, BatchOk, WaitsRightly, PromptOk, PhaseOk, LogitsFit, AppendsLogits, Appends, Extends;
    PromptTurnKeeps(cfg, o, v, i);
    TurnRules(cfg, o, v, i);
    ExtendsOn(cfg, b, v, r, i);
    if HasPrompt(v.slots[i]) {
      UntouchedHasNoEntry(cfg, v, i);
      TurnLogits(cfg, v, r, i);
    } else {
      SameLogits(cfg, v, r);
    }
  }

  lemma UntouchedHasNoEntry(cfg: Config, v: Work, i: nat)
    requires PromptsOk(cfg, v, i) && i < |v.slots| && HasPrompt(v.slots[i])
    ensures HasNoEntry(v, i)
  {
    assert Untouched(cfg, v, i);
    NoEntryOf(v.batch, i, 0);
  }

  lemma SameLogits(cfg: Config, w: Work, r: Work)
    requires LogitsFit(cfg, w) && Shaped(r) && r.slots == w.slots && r.batch == w.batch && r.logits == w.logits
    ensures LogitsFit(cfg, r)
  {
    forall j | 0 <= j < |r.batch| ensures r.batch[j].seqId < |r.slots| && LogitFits(cfg, r, j) {
      assert w.batch[j].seqId < |w.slots| && LogitFits(cfg, w, j);
    }
  }

  lemma PhaseIsPromptOk(cfg: Config, s: Slot)
    requires PhaseOk(cfg, s)
    ensures PromptOk(cfg, s)
  {
  }

  lemma PromptsAppend(cfg: Config, o: Oracle, b: Work)
    requires PromptsUpTo(cfg, b, b, 0)
    ensures exists end: nat :: PromptsUpTo(cfg, b, PromptsFrom(cfg, o, b, 0), end)
  {
    var inv := (v: Work, k: nat) => PromptsUpTo(cfg, b, v, k);
    forall v: Work, k: nat | inv(v, k) && Shaped(v) && k < |v.slots| ensures inv(PromptTurn(cfg, o, v, k).work, k + 1) {
      TurnIsNext(cfg, o, b, v, k, PromptTurn(cfg, o, v, k).work);
    }
    var end := PromptsKeep(cfg, o, b, 0, PromptsFrom(cfg, o, b, 0), inv);
  }

  /** The context shifts, slot by slot. */
  lemma {:induction false} ShiftedEach(cfg: Config, w: Work, i: nat)
    requires Shaped(w) && i <= |w.slots|
    ensures var r := ShiftFrom(cfg, w, i);
            && (forall k :: 0 <= k < i ==> r.slots[k] == w.slots[k])
            && (forall k :: i <= k < |w.slots| ==>
                  r.slots[k] == if !NeedsShift(cfg, w.slots[k]) then w.slots[k]
                                else if cfg.ctxShift then ShiftedSlot(cfg, w.slots[k]) else Release(w.slots[k]))
    decreases |w.slots| - i
  {
    hide ShiftedSlot, ShiftedKv, NeedsShift;
    if i < |w.slots| { ShiftedEach(cfg, ShiftStep(cfg, w, i), i + 1); }
  }

  /** A busy slot whose window is full is shifted, or released if shifting is off; the others stay. */
  lemma ShiftsExactly(cfg: Config, sv: Server, i: nat)
    requires Valid(sv) && i < |sv.slots|
    ensures var s := sv.slots[i];
            Shifted(cfg, sv).slots[i] == if s.phase == Idle || s.nPast + 1 < cfg.nCtx then s
                                         else if cfg.ctxShift then ShiftedSlot(cfg, s) else Release(s)
  {
    ShiftedEach(cfg, Begun(sv), 0);
    hide ShiftFrom, ShiftedSlot;
  }

  /** Every generating slot is like the first one. */
  lemma GeneratingContributes(slots: seq<Slot>, i: nat)
    requires AllMatch(slots) && i < |slots| && slots[i].phase == Generating
    ensures Contributes(slots, i)
  {
    var p := FirstGenerating(slots);
    assert CanBatch(slots[p], slots[i]);
  }

  lemma {:induction false} EntryIsThere(slots: seq<Slot>, i: nat, n: nat)
    requires i < n <= |slots| && Contributes(slots, i)
    ensures Entry(slots[i].sampled, slots[i].nPast, i) in TokenEntries(slots, n)
    decreases n
  {
    if i < n - 1 { EntryIsThere(slots, i, n - 1); }
  }

  lemma {:induction false} EntriesAreGenerating(slots: seq<Slot>, n: nat)
    requires n <= |slots|
    ensures forall e :: e in TokenEntries(slots, n) ==> e.seqId < n && slots[e.seqId].phase == Generating
    decreases n
  {
    if n > 0 { EntriesAreGenerating(slots, n - 1); }
  }

  /** What a call builds a batch from: the slots after the context shifts, and the work after the sampled tokens. */
  ghost predicate TokensIn(a: Work, b: Work) {
    && Shaped(b) && |b.slots| == |a.slots| && b.batch == TokenEntries(a.slots, |a.slots|)
    && (b.batched == if FirstGenerating(a.slots) < |a.slots| then Some(FirstGenerating(a.slots)) else None)
    && (forall k :: 0 <= k < |a.slots| ==> b.slots[k].phase == a.slots[k].phase && Alike(b.slots[k], a.slots[k]))
    && (forall k :: 0 <= k < |a.slots| && HasPrompt(a.slots[k]) ==> b.slots[k] == a.slots[k])
  }

  lemma {:induction false} QuietSlotsStay(w: Work, i: nat)
    requires Shaped(w) && i <= |w.slots|
    ensures var r := SampledFrom(w, i);
            forall k :: 0 <= k < |w.slots| && w.slots[k].phase != Generating ==> r.slots[k] == w.slots[k]
    decreases |w.slots| - i
  {
    if i < |w.slots| { QuietSlotsStay(SampledStep(w, i), i + 1); }
  }

  lemma ShiftedTokenLogits(cfg: Config, a: Work)
    requires SampledOk(cfg, a, 0)
    ensures TokenLogits(cfg, a, 0)
  {
    forall k | 0 <= k < |a.slots|
      ensures a.slots[k].phase != DonePrompt && (a.slots[k].phase == Generating ==> a.slots[k].kind != Embedding)
    {
      assert Untouched(cfg, a, k);
    }
  }

  lemma SampledIsPlaced(cfg: Config, b: Work)
    requires SampledOk(cfg, b, |b.slots|)
    ensures WaitUpTo(cfg, b, 0) && PromptsOk(cfg, b, 0)
  {
    forall k | 0 <= k < |b.slots| ensures Placed(cfg, b.slots[k], |b.batch|) {
      assert PhaseOk(cfg, b.slots[k]) && ReadyOk(b.slots[k], b.batch, k);
      PhaseIsPromptOk(cfg, b.slots[k]);
    }
  }

  lemma TokensUpToAll(a: Work, b: Work)
    requires TokensUpTo(a.slots, b, |a.slots|)
    requires forall k :: 0 <= k < |a.slots| && a.slots[k].phase != Generating ==> b.slots[k] == a.slots[k]
    ensures TokensIn(a, b)
  {
  }

  lemma PromptsStart(cfg: Config, b: Work)
    requires PromptsOk(cfg, b, 0) && LogitsFit(cfg, b)
    ensures PromptsUpTo(cfg, b, b, 0)
  {
    hide PromptsOk, LogitsFit;
  }

  lemma TokensAreIn(cfg: Config, sv: Server)
    requires RunOk(cfg, sv)
    ensures var a, b := Shifted(cfg, sv), SampledFrom(Shifted(cfg, sv), 0);
            && TokensIn(a, b) && PromptsUpTo(cfg, b, b, 0) && WaitUpTo(cfg, b, 0)
  {
    var a, b := Shifted(cfg, sv), SampledFrom(Shifted(cfg, sv), 0);
    ShiftedOk(cfg, sv);
    SampledInBudget(cfg, sv);
    assert TokensUpTo(a.slots, a, 0);
    hide *;
    TokensAreFirst(a.slots, a, 0);
    QuietSlotsStay(a, 0);
    TokensUpToAll(a, b);
    ShiftedTokenLogits(cfg, a);
    TokensLogits(cfg, a, 0);
    SampledIsPlaced(cfg, b);
    PromptsStart(cfg, b);
  }

  /** The sampled tokens of all generating slots come first, in the order of the slots. */
  ghost predicate TokensComeFirst(a: seq<Slot>, batch: seq<Entry>) {
    var tokens := TokenEntries(a, |a|);
    && tokens <= batch
    && (forall i :: 0 <= i < |a| && a[i].phase == Generating ==> Entry(a[i].sampled, a[i].nPast, i) in tokens)
    && (forall e :: e in tokens ==> e.seqId < |a| && a[e.seqId].phase == Generating)
  }

  /** Behind the first `n` entries are prompts, until the batch is full: who has to wait waits for one of three reasons,
      and slots behind the one that fills the batch are not looked at. */
  ghost predicate PromptsComeNext(cfg: Config, a: seq<Slot>, w: Work, n: nat)
    requires Shaped(w) && |w.slots| == |a| && n <= |w.batch|
  {
    && (forall j :: n <= j < |w.batch| ==>
          && w.batch[j].seqId < |a|
          && (a[w.batch[j].seqId].phase == Started || a[w.batch[j].seqId].phase == ProcessingPrompt))
    && (forall i :: 0 <= i < |a| ==> WaitsRightly(cfg, w, i))
    && (n < |w.batch| && |w.batch| >= cfg.nBatch ==>
          forall i :: w.batch[|w.batch| - 1].seqId < i < |a| && a[i].phase != Generating ==> w.slots[i] == a[i])
  }

  /** The rules of a batch `w`, built from the slots `a`: without continuous batching there are no prompts in it while
      some slot generates. */
  ghost predicate ByRules(cfg: Config, a: seq<Slot>, w: Work) {
    && Shaped(w) && |w.slots| == |a| && TokensComeFirst(a, w.batch) && LogitsFit(cfg, w)
    && var tokens := TokenEntries(a, |a|);
    && if cfg.contBatching || tokens == [] then PromptsComeNext(cfg, a, w, |tokens|)
       else w.batch == tokens && forall i :: 0 <= i < |a| && a[i].phase != Generating ==> w.slots[i] == a[i]
  }

  /** Of slots that match, every generating one has its entry. */
  lemma TokensRule(a: seq<Slot>, batch: seq<Entry>)
    requires AllMatch(a) && TokenEntries(a, |a|) <= batch
    ensures TokensComeFirst(a, batch)
  {
    forall i | 0 <= i < |a| && a[i].phase == Generating
      ensures Entry(a[i].sampled, a[i].nPast, i) in TokenEntries(a, |a|)
    {
      GeneratingContributes(a, i);
      EntryIsThere(a, i, |a|);
    }
    EntriesAreGenerating(a, |a|);
  }

  lemma PromptsRule(cfg: Config, a: seq<Slot>, b: Work, w: Work, end: nat)
    requires Shaped(b) && |b.slots| == |a| && Shaped(w) && |w.slots| == |a| && |b.batch| <= |w.batch|
    requires Extends(b, w, end) && StopsWhenFull(cfg, b, w, 0)
    requires forall k :: 0 <= k < |a| ==> WaitsRightly(cfg, w, k) && b.slots[k].phase == a[k].phase
    requires forall i :: 0 <= i < |a| && a[i].phase != Generating ==> b.slots[i] == a[i]
    ensures PromptsComeNext(cfg, a, w, |b.batch|)
  {
    hide WaitsRightly;
  }

  /** The batch after the prompt loop follows the rules. */
  lemma PromptsByRules(cfg: Config, a: Work, b: Work, w: Work, end: nat)
    requires Shaped(a) && AllMatch(a.slots) && TokensIn(a, b) && PromptsUpTo(cfg, b, w, end)
    requires Shaped(w) && forall k :: 0 <= k < |w.slots| ==> WaitsRightly(cfg, w, k)
    requires cfg.contBatching || b.batch == []
    requires StopsWhenFull(cfg, b, w, 0)
    requires forall i :: 0 <= i < |a.slots| && a.slots[i].phase != Generating ==> b.slots[i] == a.slots[i]
    ensures ByRules(cfg, a.slots, w)
  {
    hide PromptsOk, LogitsFit, WaitsRightly, TokenEntries, AllMatch, Alike, TokensComeFirst, PromptsComeNext,
         StopsWhenFull;
    TokensRule(a.slots, w.batch);
    PromptsRule(cfg, a.slots, b, w, end);
  }

  lemma TokensByRules(cfg: Config, a: Work, b: Work)
    requires Shaped(a) && AllMatch(a.slots) && TokensIn(a, b) && LogitsFit(cfg, b)
    requires forall i :: 0 <= i < |a.slots| && a.slots[i].phase != Generating ==> b.slots[i] == a.slots[i]
    requires !cfg.contBatching && b.batch != []
    ensures ByRules(cfg, a.slots, b)
  {
    hide LogitsFit, WaitsRightly, TokenEntries, AllMatch, Alike, TokensComeFirst;
    TokensRule(a.slots, b.batch);
  }

  lemma PromptsFollowRules(cfg: Config, o: Oracle, a: Work, b: Work)
    requires Shaped(a) && AllMatch(a.slots) && Shaped(b)
    requires TokensIn(a, b) && PromptsUpTo(cfg, b, b, 0) && WaitUpTo(cfg, b, 0)
    requires forall i :: 0 <= i < |a.slots| && a.slots[i].phase != Generating ==> b.slots[i] == a.slots[i]
    ensures ByRules(cfg, a.slots, Prompts(cfg, o, b))
  {
    hide ByRules, PromptsFrom, PromptsOk, LogitsFit, WaitsRightly, WaitUpTo, TokensIn, AllMatch, StopsWhenFull;
    if cfg.contBatching || b.batch == [] {
      PromptsAppend(cfg, o, b);
      PromptsWait(cfg, o, b, 0);
      PromptsStopWhenFull(cfg, o, b, 0);
      var w := PromptsFrom(cfg, o, b, 0);
      var end: nat :| PromptsUpTo(cfg, b, w, end);
      hide PromptsUpTo;
      PromptsByRules(cfg, a, b, w, end);
    } else {
      TokensByRules(cfg, a, b);
    }
  }

  /** From every sound state, and whatever the library answers: the batch of a call is made by the rules, from the slots
      after the context shifts. */
  lemma BatchIsByRules(cfg: Config, o: Oracle, sv: Server)
    requires RunOk(cfg, sv)
    ensures ByRules(cfg, Shifted(cfg, sv).slots, BuiltFrom(cfg, o, Begun(sv)))
  {
    var a := Shifted(cfg, sv);
    ShiftedOk(cfg, sv);
    TokensAreIn(cfg, sv);
    QuietSlotsStay(a, 0);
    assert BuiltFrom(cfg, o, Begun(sv)) == Prompts(cfg, o, SampledFrom(a, 0));
    hide BuiltFrom, SampledFrom, RunOk, Prompts, TokensIn, ByRules;
    PromptsFollowRules(cfg, o, a, SampledFrom(a, 0));
  }
}
