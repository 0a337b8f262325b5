/** Adapters: slots that generate at the same time were in one batch once, and agree on their adapters ever after. The
    adapters that are in force after a batch are therefore those of every slot that generates, also of one that the
    batch had no room for. */
module Adapters {
  import opened Slots
  import opened UpdateSlots
  import opened BuildSteps

  /** Any two generating slots could share a batch. */
  predicate AllMatch(slots: seq<Slot>) {
    forall i, j :: 0 <= i < |slots| && 0 <= j < |slots| ==>
      slots[i].phase == Generating && slots[j].phase == Generating ==> CanBatch(slots[i], slots[j])
  }

  /** Slot `k` generates, or will after the batch is decoded. */
  predicate Goes(s: Slot) { s.phase == Generating || s.phase == DonePrompt }

  /** Every such slot is compatible with the one that sets the pace. */
  predicate Paced(w: Work) {
    match w
    case Work(slots, _, _, _, batched, _) =>
      forall k :: 0 <= k < |slots| && Goes(slots[k]) ==>
        batched.Some? && batched.value < |slots| && CanBatch(slots[batched.value], slots[k])
  }

  predicate NoneDone(slots: seq<Slot>) { forall k :: 0 <= k < |slots| ==> slots[k].phase != DonePrompt }

  lemma {:induction false} ShiftAgrees(cfg: Config, w: Work, i: nat)
    requires Shaped(w) && i <= |w.slots| && AllMatch(w.slots) && NoneDone(w.slots)
    ensures AllMatch(ShiftFrom(cfg, w, i).slots) && NoneDone(ShiftFrom(cfg, w, i).slots)
    decreases |w.slots| - i
  {
    if i < |w.slots| {
      ShiftStepAgrees(cfg, w, i);
      hide ShiftStep, AllMatch, NoneDone;
      ShiftAgrees(cfg, ShiftStep(cfg, w, i), i + 1);
    }
  }

  lemma ShiftStepAgrees(cfg: Config, w: Work, i: nat)
    requires Shaped(w) && i < |w.slots| && AllMatch(w.slots) && NoneDone(w.slots)
    ensures AllMatch(ShiftStep(cfg, w, i).slots) && NoneDone(ShiftStep(cfg, w, i).slots)
  {
    hide ShiftedCache, ShiftedKv;
  }

  // ------------------------------------------------------------------ sampled tokens

  /** The pass over sampled tokens has come to slot `i`. */
  predicate PacedUpTo(w: Work, i: nat) {
    && NoneDone(w.slots) && AllMatch(w.slots)
    && (w.batched.Some? ==> w.batched.value < |w.slots| && w.slots[w.batched.value].phase == Generating)
    && (w.batched.None? ==> forall k :: 0 <= k < i && k < |w.slots| ==> w.slots[k].phase != Generating)
  }

  lemma SampledStepPaces(w: Work, i: nat)
    requires Shaped(w) && i < |w.slots| && PacedUpTo(w, i)
    ensures PacedUpTo(SampledStep(w, i), i + 1)
  {
  }

  lemma {:induction false} SampledPaces(w: Work, i: nat)
    requires Shaped(w) && i <= |w.slots| && PacedUpTo(w, i)
    ensures Paced(SampledFrom(w, i))
    decreases |w.slots| - i
  {
    if i < |w.slots| {
      SampledStepPaces(w, i);
      SampledPaces(SampledStep(w, i), i + 1);
    }
  }

  // ------------------------------------------------------------------ prompts

  /** Only slot `i` changes, and goes only if it could join the batch. */
  lemma TurnPaces(w: Work, r: Work, i: nat, t: Slot)
    requires Shaped(w) && i < |w.slots| && Paced(w) && r.slots == w.slots[i := t] && CanBatch(w.slots[i], t)
    requires r.batched == w.batched || (Joins(w, i) && r.batched == Joined(w, i).batched)
    requires Goes(t) ==> Joins(w, i) && r.batched == Joined(w, i).batched
    ensures Paced(r)
  {
  }

  lemma IngestPaces(cfg: Config, o: Oracle, w: Work, v: Work, i: nat)
    requires Shaped(w) && i < |w.slots| && Paced(w) && Joins(w, i) && Shaped(v) && |v.slots| == |w.slots|
    requires v.slots == w.slots[i := v.slots[i]] && v.batched == Joined(w, i).batched
             && CanBatch(w.slots[i], v.slots[i])
    requires v.slots[i].phase == ProcessingPrompt && PromptOk(cfg, v.slots[i])
    ensures Paced(IngestTurn(cfg, o, v, i).work)
  {
    IngestShape(cfg, o, v, i);
    var r := IngestTurn(cfg, o, v, i).work;
    assert r.slots == w.slots[i := r.slots[i]];
    TurnPaces(w, r, i, r.slots[i]);
  }

  lemma PromptTurnPaces(cfg: Config, o: Oracle, w: Work, i: nat)
    requires Shaped(w) && i < |w.slots| && Paced(w) && PromptOk(cfg, w.slots[i])
    ensures Paced(PromptTurn(cfg, o, w, i).work)
  {
    var s := w.slots[i];
    if HasPrompt(s) && Joins(w, i) {
      var j := Joined(w, i);
      if s.phase == ProcessingPrompt {
        IngestPaces(cfg, o, w, j, i);
      } else {
        OpenShape(cfg, s, w.kv[i]);
        match OpenPrompt(cfg, s, w.kv[i])
        case Refused(t, reply) => TurnPaces(w, PromptTurn(cfg, o, w, i).work, i, t);
        case Opened(t, kv) => IngestPaces(cfg, o, w, Put(j, i, t).(kv := j.kv[i := kv]), i);
      }
    } else {
      assert w.slots[i := s] == w.slots;
      TurnPaces(w, PromptTurn(cfg, o, w, i).work, i, s);
    }
  }
}
