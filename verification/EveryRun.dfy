/** What the results about one call say about every run from start-up. */
module EveryRun {
  import opened KvCache
  import opened Slots
  import opened UpdateSlots
  import opened ServerInvariant
  import opened BatchBuilding
  import opened BatchRules
  import opened PromptLoop
  import opened Budget
  import opened DecodeCoverage
  import opened ServerRuns
  import opened Progress
  import opened TaskQueue
  import opened ProtocolSleep
  import opened Drain

  /** Entry `j` is the last one of slot `i`. */
  predicate OwnLast(batch: seq<Entry>, j: int, i: nat) {
    0 <= j < |batch| && batch[j].seqId == i && forall k :: j < k < |batch| ==> batch[k].seqId != i
  }

  // ------------------------------------------------------------------ every batch

  /** A batch of `n` slots: it is no larger than was allocated; its slots are alike; an entry sits as far below its
      slot's `n_past` as there are entries of that slot from it on, so that positions are consecutive, and the first of
      them where the slot's cells end; a ready slot samples from its own last entry; logits are asked for these entries
      and no others, but for embeddings that are not pooled. */
  ghost predicate WellFormed(cfg: Config, w: Work, n: nat) {
    && |w.slots| == n && (|w.batch| <= cfg.nBatch || |w.batch| <= n)
    && (forall e :: e in w.batch ==> e.seqId < n)
    && (forall d, e :: d in w.batch && e in w.batch ==> Alike(w.slots[d.seqId], w.slots[e.seqId]))
    && (forall j :: 0 <= j < |w.batch| ==>
          w.batch[j].pos + Pending(w.batch, w.batch[j].seqId, j) == w.slots[w.batch[j].seqId].nPast)
    && |w.kv| == |w.slots| && (forall i :: 0 <= i < n && Pending(w.batch, i, 0) > 0 ==>
          forall p :: p in w.kv[i] <==> 0 <= p < w.slots[i].nPast - Pending(w.batch, i, 0))
    && (forall i :: 0 <= i < n && IsReady(w.slots[i]) ==> OwnLast(w.batch, w.slots[i].iBatch, i))
    && LogitsFit(cfg, w)
  }

  lemma EntriesBeginWhereCellsEnd(cfg: Config, w: Work, i: nat)
    requires BatchOk(cfg, w) && i < |w.slots| && Pending(w.batch, i, 0) > 0
    ensures forall p :: p in w.kv[i] <==> 0 <= p < w.slots[i].nPast - Pending(w.batch, i, 0)
  {
    var s, r := w.slots[i], Pending(w.batch, i, 0);
    assert Behind(cfg, s, w.kv[i], r);
    forall p | 0 <= p < s.nPast - r ensures p in w.kv[i] {
      assert Holds(w.kv[i], p, s.cache[..s.nPast - r][p], Effective(s.lora));
    }
  }

  lemma SoundIsWellFormed(cfg: Config, w: Work)
    requires BatchOk(cfg, w) && (|w.batch| <= cfg.nBatch || |w.batch| <= |w.slots|) && LogitsFit(cfg, w)
    ensures WellFormed(cfg, w, |w.slots|)
  {
    forall j | 0 <= j < |w.batch|
      ensures w.batch[j].pos + Pending(w.batch, w.batch[j].seqId, j) == w.slots[w.batch[j].seqId].nPast
    {
      assert EntryOk(w.slots, w.batch, j);
    }
    forall i | 0 <= i < |w.slots| && Pending(w.batch, i, 0) > 0
      ensures forall p :: p in w.kv[i] <==> 0 <= p < w.slots[i].nPast - Pending(w.batch, i, 0)
    {
      EntriesBeginWhereCellsEnd(cfg, w, i);
    }
    forall i | 0 <= i < |w.slots| && IsReady(w.slots[i]) ensures OwnLast(w.batch, w.slots[i].iBatch, i) {
      var last := w.slots[i].iBatch;
      assert ReadyOk(w.slots[i], w.batch, i);
      forall k | last < k < |w.batch| ensures w.batch[k].seqId != i { NoEntriesFrom(w.batch, i, last + 1, k); }
    }
  }

  /** In every run, whatever the library answers to the next call: the batch that call builds is well formed and made by
      the rules, and the decode loop takes it in views that lie end to end, with one turn for each ready slot it
      reaches. */
  lemma EveryBatchInEveryRun(cfg: Config, n: nat, params: Params, cs: seq<Command>, o: Oracle)
    requires AllAllowed(cfg, Fresh(n, params), cs)
    ensures var w := BuiltFrom(cfg, o, Begun(AfterAll(cfg, Fresh(n, params), cs)));
            && WellFormed(cfg, w, n)
            && ByRules(cfg, Shifted(cfg, AfterAll(cfg, Fresh(n, params), cs)).slots, w)
            && Covered(cfg, w, DecodeFrom(cfg, o, Loop(w, 0, cfg.nBatch, 0)))
  {
    var sv := AfterAll(cfg, Fresh(n, params), cs);
    FreshIsOk(cfg, n, params);
    RunsKeepOk(cfg, Fresh(n, params), cs);
    BuiltOk(cfg, o, sv);
    BatchIsByRules(cfg, o, sv);
    SoundIsWellFormed(cfg, BuiltFrom(cfg, o, Begun(sv)));
    DecodeCoversBatchOnce(cfg, o, BuiltFrom(cfg, o, Begun(sv)));
  }

  /** In every run: only a generating slot whose window is full up to the last place is shifted, by the numbers; with
      shifting off it is released instead. */
  lemma EveryShiftInEveryRun(cfg: Config, n: nat, params: Params, cs: seq<Command>, i: nat)
    requires AllAllowed(cfg, Fresh(n, params), cs) && i < n
    ensures var sv := AfterAll(cfg, Fresh(n, params), cs);
            var s, t := sv.slots[i], Shifted(cfg, sv).slots[i];
            if s.phase == Idle || s.nPast + 1 < cfg.nCtx then t == s
            else s.phase == Generating && s.nPast == cfg.nCtx - 1
                 && if cfg.ctxShift then ShiftsByNumbers(cfg, s, t) else t == s.(phase := Idle)
  {
    var sv := AfterAll(cfg, Fresh(n, params), cs);
    FreshIsOk(cfg, n, params);
    RunsKeepOk(cfg, Fresh(n, params), cs);
    ShiftsExactly(cfg, sv, i);
    var s := sv.slots[i];
    assert SlotOk(cfg, s, sv.kv[i]);
    hide AfterAll, AllAllowed, Shifted, RunOk;
    if s.phase != Idle && s.nPast + 1 >= cfg.nCtx {
      ShiftIsForFullWindow(cfg, s);
      if cfg.ctxShift { ShiftIsRight(cfg, s, sv.kv[i]); }
    }
  }

  /** In every run, and with any queues in which what is deferred are tasks that still can be given to some slot:
      whatever happens next, the loop thread comes to sleep with nothing left to do. */
  lemma EveryRunDrains(cfg: Config, n: nat, params: Params, cs: seq<Command>, q: Queues, choices: nat -> Choice)
    requires AllAllowed(cfg, Fresh(n, params), cs) && n > 0 && AllRuns(q.deferred)
    requires forall j: nat, i: nat :: choices(j).o.removes(i)
    ensures exists k: nat :: Drains(cfg, Machine(AfterAll(cfg, Fresh(n, params), cs), q), choices, 0, k)
  {
    var sv := AfterAll(cfg, Fresh(n, params), cs);
    FreshIsOk(cfg, n, params);
    RunsKeepOk(cfg, Fresh(n, params), cs);
    forall i | 0 <= i < n ensures Ready(cfg, sv.slots[i]) {
      assert SlotOk(cfg, sv.slots[i], sv.kv[i]) && BudgetOk(cfg, sv.slots[i]);
    }
    EverythingDrains(cfg, Machine(sv, q), choices, 0);
  }
}
