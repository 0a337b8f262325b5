/** Calls of `update_slots` on a server with one slot, worked out: how a prompt gets into the batch, into the cells, and
    what is left of the slot. The runs of `SmallRuns` are put together from this. */
module OneSlot {
  import opened Wrappers
  import opened KvCache
  import opened Slots
  import opened UpdateSlots
  import opened BuildSteps
  import opened DecodeLoop

  // ------------------------------------------------------------------ the token loop

  /** The entries of the prompt from `n_past` up to `n`. */
  function Row(s: Slot, n: nat): (row: seq<Entry>)
    requires s.nPast <= n <= |s.prompt|
    ensures |row| == n - s.nPast
    ensures forall i :: 0 <= i < |row| ==> row[i] == Entry(s.prompt[s.nPast + i], s.nPast + i, 0)
  {
    seq(n - s.nPast, i requires 0 <= i < n - s.nPast => Entry(s.prompt[s.nPast + i], s.nPast + i, 0))
  }

  function NoLogits(n: nat): (r: seq<bool>)
    ensures |r| == n && forall i :: 0 <= i < n ==> !r[i]
  {
    seq(n, _ => false)
  }

  function FedTo(s: Slot, n: nat): Slot
    requires s.nPast <= n <= |s.prompt|
  {
    s.(nPast := n, cache := if s.params.cachePrompt then s.cache + s.prompt[s.nPast..n] else s.cache)
  }

  /** The work when the prompt of the slot is in the batch up to `n`. */
  function RowWork(s: Slot, kv: Kv, n: nat): (w: Work)
    requires s.nPast <= n <= |s.prompt|
    ensures Shaped(w)
  {
    Work([FedTo(s, n)], [kv], Row(s, n), NoLogits(n - s.nPast), Some(0), [])
  }

  /** A causal slot that takes in its prompt. */
  predicate TakesPrompt(cfg: Config, s: Slot) {
    && s.kind == Completion && s.phase == ProcessingPrompt
    && s.nPromptTokens == |s.prompt| && s.nPast < |s.prompt| < cfg.nCtx
  }

  lemma FeedsOne(s: Slot, kv: Kv, n: nat)
    requires s.nPast <= n < |s.prompt|
    ensures PushToken(RowWork(s, kv, n), 0, s.prompt[n], false) == RowWork(s, kv, n + 1)
  {
    assert s.cache + s.prompt[s.nPast..n + 1] == s.cache + s.prompt[s.nPast..n] + [s.prompt[n]];
    assert Row(s, n + 1) == Row(s, n) + [Entry(s.prompt[n], n, 0)];
    assert NoLogits(n + 1 - s.nPast) == NoLogits(n - s.nPast) + [false];
    assert [FedTo(s, n)][0 := FedTo(s, n + 1)] == [FedTo(s, n + 1)];
  }

  lemma {:induction false} FeedsUpTo(cfg: Config, s: Slot, kv: Kv, n: nat, to: nat)
    requires TakesPrompt(cfg, s) && s.nPast <= n <= to <= |s.prompt| && to - s.nPast <= cfg.nBatch
    requires to == |s.prompt| || to - s.nPast == cfg.nBatch
    ensures AddTokens(cfg, RowWork(s, kv, n), 0) == RowWork(s, kv, to)
    decreases |s.prompt| - n
  {
    var w := RowWork(s, kv, n);
    if n < to {
      assert Feeds(cfg, w, w.slots[0]);
      FeedsOne(s, kv, n);
      FeedsUpTo(cfg, s, kv, n + 1, to);
    }
  }

  /** The slot after the trim. */
  function TrimmedSlot(s: Slot, removed: bool): Slot {
    var n := if removed then s.nPast else 0;
    s.(nPast := n, cache := Resized(s.cache, n))
  }

  function TrimmedKv(s: Slot, kv: Kv, removed: bool): Kv { if removed then SeqRm(kv, s.nPast, -1) else map[] }

  lemma Ingests(cfg: Config, o: Oracle, s: Slot, kv: Kv, to: nat)
    requires TakesPrompt(cfg, s)
    requires var n := TrimmedSlot(s, o.removes(0)).nPast;
             && n <= to <= |s.prompt| && to - n <= cfg.nBatch && (to == |s.prompt| || to - n == cfg.nBatch)
    ensures IngestTurn(cfg, o, Work([s], [kv], [], [], Some(0), []), 0)
            == Turn(PromptDone(RowWork(TrimmedSlot(s, o.removes(0)), TrimmedKv(s, kv, o.removes(0)), to), 0), true)
  {
    var w, t, kept := Work([s], [kv], [], [], Some(0), []), TrimmedSlot(s, o.removes(0)),
      TrimmedKv(s, kv, o.removes(0));
    assert Trimmed(w, 0, o.removes(0)) == RowWork(t, kept, t.nPast) by {
      assert t.cache + t.prompt[t.nPast..t.nPast] == t.cache;
      assert [s][0 := t] == [t] && [kv][0 := kept] == [kept];
      assert Row(t, t.nPast) == [] && NoLogits(0) == [];
    }
    hide Trimmed, RowWork, AddTokens, PromptDone, TrimmedKv, TrimmedSlot;
    FeedsUpTo(cfg, t, kept, t.nPast, to);
  }

  // ------------------------------------------------------------------ the batch

  lemma BuildsOne(cfg: Config, o: Oracle, sv: Server, s: Slot)
    requires Valid(sv) && sv.slots == [s] && HasPrompt(s) && s.nPast + 1 < cfg.nCtx
    ensures BuiltFrom(cfg, o, Begun(sv)) == PromptTurn(cfg, o, Begun(sv), 0).work
  {
    var w := Begun(sv);
    assert ShiftStep(cfg, w, 0) == w && SampledStep(w, 0) == w;
    assert ShiftFrom(cfg, w, 1) == w && SampledFrom(w, 1) == w;
    hide PromptTurn;
    var next, full := PromptsUnfold(cfg, o, w, 0);
    if !full { PromptsStop(cfg, o, next); }
  }

  /** What becomes of a task's slot when its prompt is opened on empty cells. */
  function OpenedSlot(cfg: Config, s: Slot): Slot { Fitted(cfg, BegunPrompt(s)) }

  lemma OpensOne(cfg: Config, o: Oracle, sv: Server, s: Slot)
    requires Valid(sv) && sv.slots == [s] && sv.kv == [map[]] && s.phase == Started && s.kind == Completion
    requires s.cache == [] && 0 < |s.prompt| < cfg.nCtx && cfg.nCacheReuse == 0
    ensures PromptTurn(cfg, o, Begun(sv), 0)
            == IngestTurn(cfg, o, Work([OpenedSlot(cfg, s)], [map[]], [], [], Some(0), []), 0)
    ensures TakesPrompt(cfg, OpenedSlot(cfg, s)) && OpenedSlot(cfg, s).nPast == 0 && OpenedSlot(cfg, s).cache == []
  {
    var w, t := Begun(sv), OpenedSlot(cfg, s);
    assert OpenPrompt(cfg, s, map[]) == Opened(t, map[]);
    assert Put(Joined(w, 0), 0, t).(kv := w.kv[0 := map[]]) == Work([t], [map[]], [], [], Some(0), []);
    hide IngestTurn, OpenPrompt;
  }

  lemma ResumesOne(cfg: Config, o: Oracle, sv: Server, s: Slot)
    requires Valid(sv) && sv.slots == [s] && TakesPrompt(cfg, s)
    ensures PromptTurn(cfg, o, Begun(sv), 0) == IngestTurn(cfg, o, Work([s], sv.kv, [], [], Some(0), []), 0)
  {
    hide IngestTurn;
  }

  /** With an empty batch, a prompt that is taken in puts something into it; other slots stay as they are. */
  lemma FillsBatch(cfg: Config, o: Oracle, w: Work)
    requires Shaped(w) && |w.slots| > 0 && w.batch == [] && TakesPrompt(cfg, w.slots[0])
    ensures var r := IngestTurn(cfg, o, w, 0).work; r.batch != [] && r.slots == w.slots[0 := r.slots[0]]
  {
    var t := Trimmed(w, 0, o.removes(0));
    assert Feeds(cfg, t, t.slots[0]);
    AddTokensShape(cfg, t, 0);
  }

  // ------------------------------------------------------------------ decoding

  /** Decoding the row fills just its positions. */
  lemma {:induction false} RowCells(s: Slot, kv: Kv, n: nat, j: nat, effect: Effect)
    requires s.nPast <= n <= |s.prompt| && j <= n - s.nPast
    ensures var r := DecodedCells([kv], Row(s, n), j, n - s.nPast, effect);
            && |r| == 1
            && (forall p :: p in r[0] <==> p in kv || s.nPast + j <= p < n)
            && (forall p :: p in r[0] ==> r[0][p] == if s.nPast + j <= p < n then Cell(s.prompt[p], effect) else kv[p])
    decreases |s.prompt| - j
  {
    if j < n - s.nPast {
      var next := Filled(kv, Row(s, n)[j], effect);
      assert [kv][0 := next] == [next];
      RowCells(s, next, n, j + 1, effect);
    }
  }

  lemma OneViewDecodes(cfg: Config, o: Oracle, w: Work)
    requires Shaped(w) && 0 < |w.batch| <= cfg.nBatch && o.decodes(0) == 0
    ensures DecodeFrom(cfg, o, Loop(w, 0, cfg.nBatch, 0))
            == Outcome(ViewDone(cfg, o, 0, 0, |w.batch|, w), false, |w.batch|)
  {
    var l, n, v := Loop(w, 0, cfg.nBatch, 0), |w.batch|, ViewDone(cfg, o, 0, 0, |w.batch|, w);
    ViewTurnIs(cfg, o, l, n);
    hide ViewDone;
    assert DecodeFrom(cfg, o, l) == DecodeFrom(cfg, o, Loop(v, n, cfg.nBatch, 1));
  }

  lemma NothingToDo(cfg: Config, o: Oracle, w: Work)
    requires Shaped(w) && w.batch == []
    ensures DecodeFrom(cfg, o, Loop(w, 0, cfg.nBatch, 0)) == Outcome(w, false, 0)
  {
  }

  lemma GivesUpAtOnce(cfg: Config, o: Oracle, w: Work)
    requires Shaped(w) && w.batch != [] && o.decodes(0) == -1
    ensures DecodeFrom(cfg, o, Loop(w, 0, cfg.nBatch, 0)) == Outcome(GiveUpFrom(w, 0), true, 0)
  {
  }

  /** A call with a busy slot is what the decode loop makes of the batch. */
  lemma BusyCallIs(cfg: Config, o: Oracle, sv: Server, w: Work, out: Outcome)
    requires Valid(sv) && !AllIdle(sv.slots) && w == BuiltFrom(cfg, o, Begun(sv))
    requires out == DecodeFrom(cfg, o, Loop(w, 0, cfg.nBatch, 0))
    ensures Update(cfg, sv, o) == Updated(Server(out.work.slots, out.work.kv, sv.cleanKv), out.work.events, out.fatal)
  {
  }

  /** A call whose first decode fails for good. */
  lemma FatalCallIs(cfg: Config, o: Oracle, sv: Server, w: Work)
    requires Valid(sv) && !AllIdle(sv.slots) && w == BuiltFrom(cfg, o, Begun(sv)) && w.batch != [] && o.decodes(0) == -1
    ensures var r := Update(cfg, sv, o);
            && r.fatal && r.events == GiveUpFrom(w, 0).events && r.server.kv == w.kv
            && |r.server.slots| == |w.slots|
            && forall k :: 0 <= k < |w.slots| ==> r.server.slots[k] == Release(w.slots[k])
  {
    GiveUpKeeps(w, 0);
    hide BuiltFrom, DecodeFrom, GiveUpFrom, Update;
    GivesUpAtOnce(cfg, o, w);
    BusyCallIs(cfg, o, sv, w, Outcome(GiveUpFrom(w, 0), true, 0));
  }
}
