/** Drafts that come too early: after a view that does not hold a slot's entry the slot may speculate all the same, on
    the token that still waits in the batch. */
module EarlyDrafts {
  import opened Slots
  import opened UpdateSlots
  import opened BatchBuilding
  import opened BuildSteps
  import opened Speculation
  import opened DecodeCoverage
  import opened ServerRuns

  // ------------------------------------------------------------------ generating slots while the batch is built

  /** A generating slot is left alone, or its sampled token is put into the batch. */
  predicate SampledOnce(s: Slot, t: Slot) {
    s.phase == Generating ==> t == s || (t.iBatch >= 0 && t == Grown(s.(iBatch := t.iBatch), s.sampled))
  }

  ghost predicate AllSampledOnce(a: seq<Slot>, b: seq<Slot>) {
    |b| == |a| && forall k :: 0 <= k < |a| ==> SampledOnce(a[k], b[k])
  }

  lemma {:induction false} SampledFromOnce(a: seq<Slot>, w: Work, i: nat)
    requires Shaped(w) && i <= |w.slots| && AllSampledOnce(a, w.slots)
    requires forall k :: i <= k < |a| ==> w.slots[k] == a[k]
    ensures AllSampledOnce(a, SampledFrom(w, i).slots)
    decreases |w.slots| - i
  {
    if i < |w.slots| { SampledFromOnce(a, SampledStep(w, i), i + 1); }
  }

  lemma TurnLeavesSampled(cfg: Config, o: Oracle, w: Work, i: nat)
    requires Shaped(w) && i < |w.slots|
    ensures var r := PromptTurn(cfg, o, w, i).work;
            |r.slots| == |w.slots| && forall k :: 0 <= k < |w.slots| && w.slots[k].phase == Generating ==>
              r.slots[k] == w.slots[k]
  {
    hide IngestTurn, OpenPrompt;
    if HasPrompt(w.slots[i]) && Joins(w, i) {
      var j := Joined(w, i);
      if w.slots[i].phase == ProcessingPrompt {
        IngestLeaves(cfg, o, j, i);
      } else {
        match OpenPrompt(cfg, w.slots[i], w.kv[i])
        case Refused(_, _) =>
        case Opened(t, kv) => IngestLeaves(cfg, o, Put(j, i, t).(kv := j.kv[i := kv]), i);
      }
    }
  }

  lemma IngestLeaves(cfg: Config, o: Oracle, w: Work, i: nat)
    requires Shaped(w) && i < |w.slots|
    ensures var r := IngestTurn(cfg, o, w, i).work; r.slots == w.slots[i := r.slots[i]]
  {
    AddTokensShape(cfg, Trimmed(w, i, o.removes(i)), i);
  }

  lemma BuiltSampledOnce(cfg: Config, o: Oracle, sv: Server)
    requires Valid(sv)
    ensures AllSampledOnce(Shifted(cfg, sv).slots, BuiltFrom(cfg, o, Begun(sv)).slots)
  {
    var a := Shifted(cfg, sv);
    SampledFromOnce(a.slots, a, 0);
    var b := SampledFrom(a, 0);
    if cfg.contBatching || b.batch == [] {
      var inv := (v: Work, k: nat) =>
        |v.slots| == |b.slots|
        && forall j :: 0 <= j < |b.slots| && b.slots[j].phase == Generating ==> v.slots[j] == b.slots[j];
      forall v: Work, k: nat | inv(v, k) && Shaped(v) && k < |v.slots|
        ensures inv(PromptTurn(cfg, o, v, k).work, k + 1)
      {
        TurnLeavesSampled(cfg, o, v, k);
      }
      var _ := PromptsKeep(cfg, o, b, 0, PromptsFrom(cfg, o, b, 0), inv);
    }
  }

  // ------------------------------------------------------------------ one slot in the pass over drafts

  function DraftedCache(cfg: Config, o: Oracle, call: nat, s: Slot, i: nat): seq<int> {
    if Speculates(cfg, o, call, s, i) then Advanced(s, StepIds(cfg, o, call, s, i)).cache else s.cache
  }

  lemma StepDrafts(cfg: Config, o: Oracle, call: nat, w: Work, k: nat, i: nat)
    requires Shaped(w) && k < |w.slots| && i < |w.slots|
    ensures var t := SpeculateStep(cfg, o, call, w, k).slots[i];
            && (k != i ==> t == w.slots[i])
            && t.iBatch == w.slots[i].iBatch && (k == i ==> t.cache == DraftedCache(cfg, o, call, w.slots[i], i))
  {
    var s := w.slots[k];
    if Speculates(cfg, o, call, s, k) {
      var draft, ids := Draft(cfg, o, call, s, k), StepIds(cfg, o, call, s, k);
      var kv := AdvancedKv(s, w.kv[k], draft, ids, InForce(w), o.verifies(call, k));
      var v := Put(w, k, Advanced(s, ids)).(kv := w.kv[k := kv]);
      EmitKeeps(cfg, v, k, ids, 0);
      assert SpeculateStep(cfg, o, call, w, k) == EmitFrom(cfg, v, k, ids, 0);
    }
  }

  lemma {:induction false} LaterStepsDraftNothing(cfg: Config, o: Oracle, call: nat, w: Work, k: nat, i: nat)
    requires Shaped(w) && i < k <= |w.slots|
    ensures SpeculateFrom(cfg, o, call, w, k).slots[i] == w.slots[i]
    decreases |w.slots| - k
  {
    if k < |w.slots| {
      StepDrafts(cfg, o, call, w, k, i);
      hide SpeculateStep;
      LaterStepsDraftNothing(cfg, o, call, SpeculateStep(cfg, o, call, w, k), k + 1, i);
    }
  }

  lemma {:induction false} PassDrafts(cfg: Config, o: Oracle, call: nat, w: Work, k: nat, i: nat)
    requires Shaped(w) && k <= i < |w.slots|
    ensures var t := SpeculateFrom(cfg, o, call, w, k).slots[i];
            t.iBatch == w.slots[i].iBatch && t.cache == DraftedCache(cfg, o, call, w.slots[i], i)
    decreases i - k
  {
    var v := SpeculateStep(cfg, o, call, w, k);
    StepDrafts(cfg, o, call, w, k, i);
    hide SpeculateStep, DraftedCache;
    if k < i { PassDrafts(cfg, o, call, v, k + 1, i); } else { LaterStepsDraftNothing(cfg, o, call, v, k + 1, i); }
  }

  // ------------------------------------------------------------------ the first view

  /** After the first view, `[0, count)`, the slot still waits for its own view but has cached a draft. */
  predicate DraftedEarly(s: Slot, t: Slot) { t.iBatch == s.iBatch && |t.cache| > |s.cache| }

  lemma FirstViewDrafts(cfg: Config, o: Oracle, call: nat, w0: Work, i: nat, count: nat)
    requires Shaped(w0) && i < |w0.slots| && 0 < count <= |w0.batch| && cfg.hasDraft
    requires w0.slots[i].phase == Generating && w0.slots[i].iBatch >= 0
    ensures var s, t := w0.slots[i], ViewDone(cfg, o, call, 0, count, w0).slots[i];
            if s.iBatch < count then t.iBatch == -1
            else t.iBatch == s.iBatch && t.cache == DraftedCache(cfg, o, call, s, i)
  {
    var d := ViewDecoded(w0, 0, count);
    var h := HandleFrom(cfg, o, call, 0, count, d, 0);
    if w0.slots[i].iBatch < count {
      HandleTakesTurn(cfg, o, call, View(0, count), d, 0, i);
    } else {
      HandleKeepsOthers(cfg, o, call, View(0, count), d, 0, i);
    }
    hide HandleFrom;
    PassDrafts(cfg, o, call, h, 0, i);
  }

  /** A slot whose sampled token is in the batch speculates before that token is decoded exactly if its entry lies
      behind
      the first view and the draft limits let it; its sampled token is then cached twice in a row. (`a` are the slots
      after context shifts, and `n` is where the token was put.) */
  lemma EarlyDraftExactly(cfg: Config, o: Oracle, sv: Server, call: nat, i: nat, count: nat)
    requires RunOk(cfg, sv) && cfg.hasDraft && i < |sv.slots| && Shifted(cfg, sv).slots[i].phase == Generating
    requires var w0 := BuiltFrom(cfg, o, Begun(sv)); w0.slots[i].iBatch >= 0 && 0 < count <= |w0.batch|
    ensures var w0, a := BuiltFrom(cfg, o, Begun(sv)), Shifted(cfg, sv).slots[i];
            var s, t, n := w0.slots[i], ViewDone(cfg, o, call, 0, count, w0).slots[i], a.nPast;
            && (DraftedEarly(s, t) <==> count <= s.iBatch && Speculates(cfg, o, call, s, i))
            && (DraftedEarly(s, t) ==> n + 1 < |t.cache| && t.cache[n] == t.cache[n + 1] == a.sampled)
  {
    var w0, a := BuiltFrom(cfg, o, Begun(sv)), Shifted(cfg, sv).slots[i];
    hide *;
    ShiftedSlotIs(cfg, sv, i);
    BuiltSlotIs(cfg, o, sv, i);
    FirstViewDrafts(cfg, o, call, w0, i, count);
    DraftedIs(cfg, o, call, a, w0.slots[i], i);
    DraftedEarlyMeans(w0.slots[i], ViewDone(cfg, o, call, 0, count, w0).slots[i]);
  }

  lemma ShiftedSlotIs(cfg: Config, sv: Server, i: nat)
    requires RunOk(cfg, sv) && i < |sv.slots| && Shifted(cfg, sv).slots[i].phase == Generating
    ensures var a := Shifted(cfg, sv).slots[i]; a.iBatch == -1 && a.nPast == |a.cache| && a.params.cachePrompt
  {
    ShiftedOk(cfg, sv);
    hide Shifted;
    assert Untouched(cfg, Shifted(cfg, sv), i);
  }

  lemma BuiltSlotIs(cfg: Config, o: Oracle, sv: Server, i: nat)
    requires Valid(sv) && i < |sv.slots| && Shifted(cfg, sv).slots[i].phase == Generating
    requires Shifted(cfg, sv).slots[i].iBatch == -1 && BuiltFrom(cfg, o, Begun(sv)).slots[i].iBatch >= 0
    ensures var a, s := Shifted(cfg, sv).slots[i], BuiltFrom(cfg, o, Begun(sv)).slots[i];
            s == Grown(a.(iBatch := s.iBatch), a.sampled) && s.phase == Generating
  {
    BuiltSampledOnce(cfg, o, sv);
    hide BuiltFrom, Shifted;
    assert SampledOnce(Shifted(cfg, sv).slots[i], BuiltFrom(cfg, o, Begun(sv)).slots[i]);
  }

  lemma DraftedIs(cfg: Config, o: Oracle, call: nat, a: Slot, s: Slot, i: nat)
    requires s == Grown(a.(iBatch := s.iBatch), a.sampled) && a.params.cachePrompt && a.nPast == |a.cache|
    ensures var n, cache := a.nPast, DraftedCache(cfg, o, call, s, i);
            && (Speculates(cfg, o, call, s, i) <==> |cache| > |s.cache|)
            && (Speculates(cfg, o, call, s, i) ==> n + 1 < |cache| && cache[n] == cache[n + 1] == a.sampled)
  {
    EarlyDraftRepeatsToken(a, s, StepIds(cfg, o, call, s, i));
  }

  lemma DraftedEarlyMeans(s: Slot, t: Slot)
    ensures DraftedEarly(s, t) <==> t.iBatch == s.iBatch && |t.cache| > |s.cache|
  {
  }
}
