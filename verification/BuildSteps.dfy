/** What building the batch does to budgets and to the work that is left, slot by slot. */
module BuildSteps {
  import opened KvCache
  import opened PromptReuse
  import opened Slots
  import opened UpdateSlots
  import opened Budget

  /** No slot leaves its budget, and tasks stay where they are. */
  predicate InBudget(cfg: Config, s: Slot, t: Slot) {
    t.idTask == s.idTask && (BudgetOk(cfg, s) ==> BudgetOk(cfg, t))
  }

  /** Nor does a slot get more to do. */
  predicate Eased(cfg: Config, s: Slot, t: Slot) {
    InBudget(cfg, s, t) && Load(cfg, t) <= Load(cfg, s)
  }

  predicate AllEased(cfg: Config, w: Work, v: Work) {
    |v.slots| == |w.slots| && forall k :: 0 <= k < |w.slots| ==> Eased(cfg, w.slots[k], v.slots[k])
  }

  lemma EasedAgain(cfg: Config, w: Work, v: Work, r: Work)
    requires AllEased(cfg, w, v) && AllEased(cfg, v, r)
    ensures AllEased(cfg, w, r)
  {
  }

  /** What the prompt loop needs to know of a slot. */
  predicate PromptOk(cfg: Config, s: Slot) {
    && (s.phase == Started ==> s.nPast == 0)
    && (s.phase == DonePrompt ==> s.nDecoded == 0)
    && (s.phase == ProcessingPrompt ==>
          && s.nPromptTokens == |s.prompt| && s.nPast < s.nPromptTokens
          && (if NonCausal(s) then s.nPast == 0 && s.nPromptTokens <= cfg.nBatch else s.nPromptTokens < cfg.nCtx))
  }

  /** A slot before anything is put into the batch. */
  predicate Settled(cfg: Config, s: Slot) {
    PromptOk(cfg, s) && s.phase != DonePrompt && (s.phase == Generating ==> s.iBatch == -1)
  }

  lemma ShiftStepEases(cfg: Config, w: Work, i: nat)
    requires Shaped(w) && i < |w.slots| && Settled(cfg, w.slots[i])
    ensures AllEased(cfg, w, ShiftStep(cfg, w, i)) && Settled(cfg, ShiftStep(cfg, w, i).slots[i])
    ensures ShiftStep(cfg, w, i).slots == w.slots[i := ShiftStep(cfg, w, i).slots[i]]
  {
    if NeedsShift(cfg, w.slots[i]) { assert w.slots[i].phase == Generating; }
  }

  lemma {:induction false} ShiftFromEases(cfg: Config, w: Work, i: nat)
    requires Shaped(w) && i <= |w.slots| && forall k :: 0 <= k < |w.slots| ==> Settled(cfg, w.slots[k])
    ensures var r := ShiftFrom(cfg, w, i);
            AllEased(cfg, w, r) && forall k :: 0 <= k < |r.slots| ==> Settled(cfg, r.slots[k])
    decreases |w.slots| - i
  {
    if i < |w.slots| {
      var v := ShiftStep(cfg, w, i);
      ShiftStepEases(cfg, w, i);
      ShiftFromEases(cfg, v, i + 1);
      EasedAgain(cfg, w, v, ShiftFrom(cfg, w, i));
    }
  }

  lemma SampledStepEases(cfg: Config, w: Work, i: nat)
    requires Shaped(w) && i < |w.slots|
    ensures AllEased(cfg, w, SampledStep(w, i))
  {
  }

  lemma {:induction false} SampledFromEases(cfg: Config, w: Work, i: nat)
    requires Shaped(w) && i <= |w.slots|
    ensures AllEased(cfg, w, SampledFrom(w, i))
    decreases |w.slots| - i
  {
    if i < |w.slots| {
      SampledStepEases(cfg, w, i);
      SampledFromEases(cfg, SampledStep(w, i), i + 1);
    }
  }

  // ------------------------------------------------------------------ prompts

  /** The token loop changes one slot, in its cached tokens and `n_past`, which grows by the entries added, until
      the prompt is in or the batch is full. */
  lemma {:induction false} AddTokensShape(cfg: Config, w: Work, i: nat)
    requires Shaped(w) && i < |w.slots|
    ensures var r := AddTokens(cfg, w, i);
            && r.kv == w.kv && r.batched == w.batched && r.events == w.events
            && r.slots == w.slots[i := w.slots[i].(nPast := r.slots[i].nPast, cache := r.slots[i].cache)]
            && r.slots[i].nPast == w.slots[i].nPast + |r.batch| - |w.batch| >= w.slots[i].nPast
            && (r.slots[i].nPast > w.slots[i].nPast ==> r.slots[i].nPast <= w.slots[i].nPromptTokens)
            && (|w.batch| <= cfg.nBatch ==> |r.batch| <= cfg.nBatch)
            && !Feeds(cfg, r, r.slots[i]) && (Feeds(cfg, w, w.slots[i]) ==> r.slots[i].nPast > w.slots[i].nPast)
    decreases cfg.nBatch - |w.batch|
  {
    var s := w.slots[i];
    if Feeds(cfg, w, s) {
      AddTokensShape(cfg, PushToken(w, i, s.prompt[s.nPast], s.kind == Embedding && cfg.noPooling), i);
    }
  }

  /** The slot after the rest of its turn: still taking in its prompt, or done with it. */
  predicate TakenIn(cfg: Config, s: Slot, t: Slot, n: nat) {
    && t.idTask == s.idTask && t.params == s.params && t.nPromptTokens == s.nPromptTokens && CanBatch(s, t)
    && PromptOk(cfg, t)
    && (t.phase == ProcessingPrompt || (t.phase == DonePrompt && 0 <= t.iBatch < n))
  }

  lemma TrimmedShape(cfg: Config, w: Work, i: nat, removed: bool)
    requires Shaped(w) && i < |w.slots| && w.slots[i].phase == ProcessingPrompt && PromptOk(cfg, w.slots[i])
    ensures var r := Trimmed(w, i, removed);
            && r.slots == w.slots[i := r.slots[i]] && r.batched == w.batched && r.events == w.events
               && r.batch == w.batch
            && r.slots[i] == w.slots[i].(nPast := r.slots[i].nPast, cache := r.slots[i].cache)
            && r.slots[i].nPast <= w.slots[i].nPast && (removed ==> r.slots[i].nPast == w.slots[i].nPast)
  {
  }

  lemma FedShape(cfg: Config, t: Work, i: nat)
    requires Shaped(t) && i < |t.slots| && t.slots[i].phase == ProcessingPrompt && PromptOk(cfg, t.slots[i])
    requires NonCausal(t.slots[i]) ==> |t.batch| + t.slots[i].nPromptTokens <= cfg.nBatch
    ensures var r := PromptDone(AddTokens(cfg, t, i), i);
            && r.slots == t.slots[i := r.slots[i]] && r.batched == t.batched && r.events == t.events
            && |r.batch| >= |t.batch|
            && TakenIn(cfg, t.slots[i], r.slots[i], |r.batch|)
            && Load(cfg, r.slots[i]) <= Load(cfg, t.slots[i])
            && (t.batch == [] ==> Load(cfg, r.slots[i]) < Load(cfg, t.slots[i]))
  {
    AddTokensShape(cfg, t, i);
  }

  lemma IngestShape(cfg: Config, o: Oracle, w: Work, i: nat)
    requires Shaped(w) && i < |w.slots| && w.slots[i].phase == ProcessingPrompt && PromptOk(cfg, w.slots[i])
    ensures var r := IngestTurn(cfg, o, w, i).work;
            && r.slots == w.slots[i := r.slots[i]] && r.batched == w.batched && r.events == w.events
            && |r.batch| >= |w.batch|
            && TakenIn(cfg, w.slots[i], r.slots[i], |r.batch|)
            && (o.removes(i) ==> Load(cfg, r.slots[i]) <= Load(cfg, w.slots[i]))
            && (o.removes(i) && w.batch == [] ==> Load(cfg, r.slots[i]) < Load(cfg, w.slots[i]))
  {
    var s := w.slots[i];
    if !(NonCausal(s) && |w.batch| + s.nPromptTokens > cfg.nBatch) {
      TrimmedShape(cfg, w, i, o.removes(i));
      FedShape(cfg, Trimmed(w, i, o.removes(i)), i);
    }
  }

  lemma OpenShape(cfg: Config, s: Slot, kv: Kv)
    requires s.phase == Started
    ensures var r := OpenPrompt(cfg, s, kv);
            && r.slot.idTask == s.idTask && r.slot.iBatch == s.iBatch && CanBatch(s, r.slot)
            && (r.Refused? ==> r.slot.phase == Idle)
            && (r.Opened? ==>
                  && r.slot.phase == ProcessingPrompt && r.slot.params == s.params.(nKeep := r.slot.params.nKeep)
                  && PromptOk(cfg, r.slot) && r.slot.nPromptTokens <= |s.prompt|
                  && Load(cfg, r.slot) < Load(cfg, s))
  {
    if !NonCausal(s) && |s.prompt| >= cfg.nCtx {
      TruncationFits(s.prompt, ClampKeep(s.params.nKeep, |s.prompt|, cfg.nCtx), cfg.nCtx);
    }
  }

  /** A slot while a batch of `n` entries is built: a ready one points into the batch. */
  predicate Placed(cfg: Config, s: Slot, n: nat) {
    && PromptOk(cfg, s)
    && (s.phase == DonePrompt ==> 0 <= s.iBatch < n)
    && (s.phase == Generating ==> s.iBatch == -1 || 0 <= s.iBatch < n)
  }

  /** A turn changes its own slot only. If partial removals work it gives it no more to do, and less if there is
      a prompt to take in and the batch is empty. */
  predicate TurnShaped(cfg: Config, w: Work, r: Work, i: nat, removes: bool)
    requires Shaped(w) && Shaped(r) && |r.slots| == |w.slots| && i < |w.slots|
  {
    var s, t := w.slots[i], r.slots[i];
    && r.slots == w.slots[i := t] && |r.batch| >= |w.batch|
    && Placed(cfg, t, |r.batch|)
    && (IsReady(s) ==> t == s)
    && InBudget(cfg, s, t)
    && (removes ==> Eased(cfg, s, t))
    && (removes && w.batch == [] && HasPrompt(s) && Joins(w, i) ==> Load(cfg, t) < Load(cfg, s))
  }

  lemma RefusedTurnShape(cfg: Config, o: Oracle, w: Work, i: nat)
    requires Shaped(w) && i < |w.slots| && w.slots[i].phase == Started && Joins(w, i)
    requires OpenPrompt(cfg, w.slots[i], w.kv[i]).Refused?
    ensures TurnShaped(cfg, w, PromptTurn(cfg, o, w, i).work, i, o.removes(i))
  {
    OpenShape(cfg, w.slots[i], w.kv[i]);
  }

  lemma OpenedTurnShape(cfg: Config, o: Oracle, w: Work, i: nat)
    requires Shaped(w) && i < |w.slots| && w.slots[i].phase == Started && Joins(w, i)
    requires OpenPrompt(cfg, w.slots[i], w.kv[i]).Opened?
    ensures TurnShaped(cfg, w, PromptTurn(cfg, o, w, i).work, i, o.removes(i))
  {
    var j, r := Joined(w, i), OpenPrompt(cfg, w.slots[i], w.kv[i]);
    OpenShape(cfg, w.slots[i], w.kv[i]);
    assert r.slot.idTask == w.slots[i].idTask && !IsReady(w.slots[i]);
    var v := Put(j, i, r.slot).(kv := j.kv[i := r.kv]);
    assert PromptTurn(cfg, o, w, i) == IngestTurn(cfg, o, v, i);
    hide PromptTurn, IngestTurn, OpenPrompt, Load, PromptOk;
    IngestShape(cfg, o, v, i);
  }

  lemma PromptTurnShape(cfg: Config, o: Oracle, w: Work, i: nat)
    requires Shaped(w) && i < |w.slots| && Placed(cfg, w.slots[i], |w.batch|)
    ensures TurnShaped(cfg, w, PromptTurn(cfg, o, w, i).work, i, o.removes(i))
  {
    if HasPrompt(w.slots[i]) && Joins(w, i) {
      if w.slots[i].phase == Started {
        if OpenPrompt(cfg, w.slots[i], w.kv[i]).Refused? {
          RefusedTurnShape(cfg, o, w, i);
        } else {
          OpenedTurnShape(cfg, o, w, i);
        }
      } else {
        IngestShape(cfg, o, Joined(w, i), i);
      }
    }
  }
}
