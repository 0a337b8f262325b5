/** `id_task` of a slot is set when a task is launched; no call of `update_slots` changes it. */
module SlotIds {
  import opened Wrappers
  import opened Slots
  import opened UpdateSlots
  import opened Traces
  import opened BuildSteps
  import opened Speculation
  import opened DecodeLoop

  predicate IdsStay(a: seq<Slot>, b: seq<Slot>) {
    |b| == |a| && forall k :: 0 <= k < |a| ==> b[k].idTask == a[k].idTask
  }

  lemma {:induction false} ShiftKeepsIds(cfg: Config, w: Work, i: nat)
    requires Shaped(w) && i <= |w.slots|
    ensures IdsStay(w.slots, ShiftFrom(cfg, w, i).slots)
    decreases |w.slots| - i
  {
    if i < |w.slots| { ShiftKeepsIds(cfg, ShiftStep(cfg, w, i), i + 1); }
  }

  lemma {:induction false} SampledKeepsIds(w: Work, i: nat)
    requires Shaped(w) && i <= |w.slots|
    ensures IdsStay(w.slots, SampledFrom(w, i).slots)
    decreases |w.slots| - i
  {
    if i < |w.slots| { SampledKeepsIds(SampledStep(w, i), i + 1); }
  }

  lemma IngestKeepsIds(cfg: Config, o: Oracle, w: Work, i: nat)
    requires Shaped(w) && i < |w.slots|
    ensures IdsStay(w.slots, IngestTurn(cfg, o, w, i).work.slots)
  {
    AddTokensShape(cfg, Trimmed(w, i, o.removes(i)), i);
  }

  lemma TurnKeepsIds(cfg: Config, o: Oracle, w: Work, i: nat)
    requires Shaped(w) && i < |w.slots|
    ensures IdsStay(w.slots, PromptTurn(cfg, o, w, i).work.slots)
  {
    var s, j := w.slots[i], Joined(w, i);
    if HasPrompt(s) && Joins(w, i) {
      if s.phase == ProcessingPrompt {
        IngestKeepsIds(cfg, o, j, i);
      } else {
        OpenKeepsTask(cfg, s, w.kv[i]);
        hide IngestTurn, OpenPrompt;
        match OpenPrompt(cfg, s, w.kv[i])
        case Refused(_, _) =>
        case Opened(t, kv) => IngestKeepsIds(cfg, o, Put(j, i, t).(kv := j.kv[i := kv]), i);
      }
    }
  }

  lemma BuiltKeepsIds(cfg: Config, o: Oracle, w: Work)
    requires Shaped(w)
    ensures IdsStay(w.slots, BuiltFrom(cfg, o, w).slots)
  {
    var a := ShiftFrom(cfg, w, 0).(batch := [], logits := [], batched := None);
    var b := SampledFrom(a, 0);
    ShiftKeepsIds(cfg, w, 0);
    SampledKeepsIds(a, 0);
    if cfg.contBatching || b.batch == [] {
      var inv := (v: Work, k: nat) => IdsStay(b.slots, v.slots);
      forall v: Work, k: nat | inv(v, k) && Shaped(v) && k < |v.slots|
        ensures inv(PromptTurn(cfg, o, v, k).work, k + 1)
      {
        TurnKeepsIds(cfg, o, v, k);
      }
      var _ := PromptsKeep(cfg, o, b, 0, PromptsFrom(cfg, o, b, 0), inv);
    }
  }

  lemma {:induction false} HandleKeepsIds(cfg: Config, o: Oracle, call: nat, start: nat, count: nat, w: Work, i: nat)
    requires Shaped(w) && i <= |w.slots|
    ensures IdsStay(w.slots, HandleFrom(cfg, o, call, start, count, w, i).slots)
    decreases |w.slots| - i
  {
    if i < |w.slots| {
      HandleStepShape(cfg, o, call, start, count, w, i);
      ProcessTokenStops(cfg, Counted(w.slots[i]), o.samples(call, i));
      hide HandleStep, ProcessToken;
      HandleKeepsIds(cfg, o, call, start, count, HandleStep(cfg, o, call, start, count, w, i), i + 1);
    }
  }

  lemma DraftKeepsIds(cfg: Config, o: Oracle, call: nat, w: Work, i: nat)
    requires Shaped(w) && i < |w.slots|
    ensures IdsStay(w.slots, SpeculateStep(cfg, o, call, w, i).slots)
  {
    var s := w.slots[i];
    if Speculates(cfg, o, call, s, i) {
      var draft := Draft(cfg, o, call, s, i);
      var ids := AcceptedIds(o, call, i, draft);
      var kv := AdvancedKv(s, w.kv[i], draft, ids, InForce(w), o.verifies(call, i));
      EmitKeeps(cfg, Put(w, i, Advanced(s, ids)).(kv := w.kv[i := kv]), i, ids, 0);
    }
  }

  lemma {:induction false} DraftsKeepIds(cfg: Config, o: Oracle, call: nat, w: Work, i: nat)
    requires Shaped(w) && i <= |w.slots|
    ensures IdsStay(w.slots, SpeculateFrom(cfg, o, call, w, i).slots)
    decreases |w.slots| - i
  {
    if i < |w.slots| {
      hide SpeculateStep;
      DraftKeepsIds(cfg, o, call, w, i);
      DraftsKeepIds(cfg, o, call, SpeculateStep(cfg, o, call, w, i), i + 1);
    }
  }

  lemma ViewKeepsIds(cfg: Config, o: Oracle, call: nat, start: nat, count: nat, w: Work)
    requires Shaped(w) && start + count <= |w.batch|
    ensures IdsStay(w.slots, ViewDone(cfg, o, call, start, count, w).slots)
  {
    var d := ViewDecoded(w, start, count);
    HandleKeepsIds(cfg, o, call, start, count, d, 0);
    if cfg.hasDraft { DraftsKeepIds(cfg, o, call, HandleFrom(cfg, o, call, start, count, d, 0), 0); }
  }

  lemma {:induction false} DecodeKeepsIds(cfg: Config, o: Oracle, l: Loop)
    requires Shaped(l.work) && l.nBatch >= 1
    ensures IdsStay(l.work.slots, DecodeFrom(cfg, o, l).work.slots)
    decreases |l.work.batch| - l.i, l.nBatch
  {
    match DecodeTurn(cfg, o, l)
    case Stop(_) => GiveUpKeeps(l.work, 0);
    case Again(m) =>
      if o.decodes(l.call) == 0 {
        ViewKeepsIds(cfg, o, l.call, l.i, Min(l.nBatch, |l.work.batch| - l.i), l.work);
      }
      DecodeKeepsIds(cfg, o, m);
  }

  /** A call leaves every slot the id of the task it runs or ran last. */
  lemma UpdateKeepsIds(cfg: Config, sv: Server, o: Oracle)
    requires Valid(sv)
    ensures IdsStay(sv.slots, Update(cfg, sv, o).server.slots)
  {
    if !AllIdle(sv.slots) {
      var w := BuiltFrom(cfg, o, Begun(sv));
      BuiltKeepsIds(cfg, o, Begun(sv));
      DecodeKeepsIds(cfg, o, Loop(w, 0, cfg.nBatch, 0));
    }
  }
}
