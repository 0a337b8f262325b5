/** Every call of `update_slots` with a busy slot gets on with the work, as long as partial removals of cells
    work, with or without a draft model. Nothing is assumed about the cells: the argument covers tasks that do
    not cache their prompts, any discard, and decoding that fails for good. */
module Progress {
  import opened Wrappers
  import opened KvCache
  import opened Slots
  import opened UpdateSlots
  import opened Budget
  import opened BuildSteps
  import opened Adapters
  import opened Speculation
  import opened DecodeLoop

  /** A slot between two calls. */
  predicate Ready(cfg: Config, s: Slot) { Settled(cfg, s) && BudgetOk(cfg, s) }

  ghost predicate AllReady(cfg: Config, slots: seq<Slot>) {
    forall i :: 0 <= i < |slots| ==> Ready(cfg, slots[i])
  }

  function Sum(cfg: Config, slots: seq<Slot>): nat {
    if slots == [] then 0 else Sum(cfg, slots[..|slots| - 1]) + Load(cfg, slots[|slots| - 1])
  }

  ghost predicate NoMore(cfg: Config, a: seq<Slot>, b: seq<Slot>) {
    |b| == |a| && forall i :: 0 <= i < |a| ==> Load(cfg, b[i]) <= Load(cfg, a[i])
  }

  ghost predicate Less(cfg: Config, a: seq<Slot>, b: seq<Slot>) {
    NoMore(cfg, a, b) && exists i :: 0 <= i < |a| && Load(cfg, b[i]) < Load(cfg, a[i])
  }

  lemma {:induction false} SumShrinks(cfg: Config, a: seq<Slot>, b: seq<Slot>)
    requires NoMore(cfg, a, b)
    ensures Sum(cfg, b) <= Sum(cfg, a)
    ensures Less(cfg, a, b) ==> Sum(cfg, b) < Sum(cfg, a)
  {
    if a != [] {
      var n := |a| - 1;
      SumShrinks(cfg, a[..n], b[..n]);
      if Less(cfg, a, b) && !(Load(cfg, b[n]) < Load(cfg, a[n])) {
        var i :| 0 <= i < |a| && Load(cfg, b[i]) < Load(cfg, a[i]);
        assert Load(cfg, b[..n][i]) < Load(cfg, a[..n][i]);
      }
    }
  }

  // ------------------------------------------------------------------ while the batch is built

  ghost predicate AllPlaced(cfg: Config, w: Work) {
    Shaped(w) && forall i :: 0 <= i < |w.slots| ==> Placed(cfg, w.slots[i], |w.batch|) && BudgetOk(cfg, w.slots[i])
  }

  /** The batch is empty exactly if no slot generates. */
  lemma {:induction false} SampledPlaces(cfg: Config, w: Work, i: nat)
    requires AllPlaced(cfg, w) && i <= |w.slots|
    requires forall k :: i <= k < |w.slots| ==> !IsReady(w.slots[k])
    requires w.batch == [] ==> w.batched.None? && forall k :: 0 <= k < i ==> w.slots[k].phase != Generating
    requires w.batch != [] ==> exists k :: 0 <= k < i && IsReady(w.slots[k])
    ensures var r := SampledFrom(w, i);
            && AllPlaced(cfg, r)
            && (r.batch == [] ==> r.batched.None? && forall k :: 0 <= k < |r.slots| ==> r.slots[k].phase != Generating)
            && (r.batch != [] ==> exists k :: 0 <= k < |r.slots| && IsReady(r.slots[k]))
    decreases |w.slots| - i
  {
    if i < |w.slots| {
      var v := SampledStep(w, i);
      SampledStepPlaces(cfg, w, i);
      if w.batch != [] {
        var k :| 0 <= k < i && IsReady(w.slots[k]);
        assert IsReady(v.slots[k]);
      } else if v.batch != [] {
        assert IsReady(v.slots[i]);
      }
      SampledPlaces(cfg, v, i + 1);
    }
  }

  lemma SampledStepPlaces(cfg: Config, w: Work, i: nat)
    requires AllPlaced(cfg, w) && i < |w.slots| && !IsReady(w.slots[i])
    ensures var r := SampledStep(w, i);
            && AllPlaced(cfg, r) && |r.batch| >= |w.batch|
            && (forall k :: 0 <= k < |w.slots| && k != i ==> r.slots[k] == w.slots[k])
            && (r.batch == [] ==> r == w && (w.batched.None? ==> w.slots[i].phase != Generating))
            && (|r.batch| > |w.batch| ==> IsReady(r.slots[i]))
  {
    var r := SampledStep(w, i);
    forall k | 0 <= k < |w.slots| ensures Placed(cfg, r.slots[k], |r.batch|) && BudgetOk(cfg, r.slots[k]) {
      assert Placed(cfg, w.slots[k], |w.batch|) && BudgetOk(cfg, w.slots[k]);
    }
  }

  lemma PromptTurnPlaces(cfg: Config, o: Oracle, w: Work, i: nat)
    requires AllPlaced(cfg, w) && i < |w.slots|
    ensures AllPlaced(cfg, PromptTurn(cfg, o, w, i).work)
    ensures TurnShaped(cfg, w, PromptTurn(cfg, o, w, i).work, i, o.removes(i))
  {
    PromptTurnShape(cfg, o, w, i);
    var r := PromptTurn(cfg, o, w, i).work;
    forall k | 0 <= k < |w.slots| ensures Placed(cfg, r.slots[k], |r.batch|) && BudgetOk(cfg, r.slots[k]) {
      assert Placed(cfg, w.slots[k], |w.batch|) && BudgetOk(cfg, w.slots[k]);
    }
  }

  /** No slot of `a` has more to do in `b`, and ready slots were left alone. */
  ghost predicate PlacedSince(cfg: Config, a: Work, b: Work) {
    match b
    case Work(slots, _, _, _, _, _) =>
      && AllPlaced(cfg, b) && NoMore(cfg, a.slots, slots)
      && (forall k :: 0 <= k < |a.slots| && IsReady(a.slots[k]) ==> slots[k] == a.slots[k])
  }

  lemma PlacedSinceAgain(cfg: Config, a: Work, b: Work, c: Work)
    requires PlacedSince(cfg, a, b) && PlacedSince(cfg, b, c)
    ensures PlacedSince(cfg, a, c)
    ensures Less(cfg, a.slots, b.slots) ==> Less(cfg, a.slots, c.slots)
  {
    NoMoreAgain(cfg, a.slots, b.slots, c.slots);
  }

  lemma TurnPlacesOn(cfg: Config, o: Oracle, w: Work, i: nat)
    requires AllPlaced(cfg, w) && i < |w.slots| && o.removes(i)
    ensures PlacedSince(cfg, w, PromptTurn(cfg, o, w, i).work)
    ensures w.batch == [] && w.batched.None? && HasPrompt(w.slots[i]) ==>
              Less(cfg, w.slots, PromptTurn(cfg, o, w, i).work.slots)
  {
    PromptTurnPlaces(cfg, o, w, i);
  }

  /** The prompt loop gives no slot more to do and leaves ready slots alone. */
  lemma PromptsPlace(cfg: Config, o: Oracle, w: Work, i: nat)
    requires AllPlaced(cfg, w) && i <= |w.slots| && forall k: nat :: o.removes(k)
    ensures PlacedSince(cfg, w, PromptsFrom(cfg, o, w, i))
  {
    var inv := (v: Work, k: nat) => PlacedSince(cfg, w, v);
    forall v: Work, k: nat | inv(v, k) && Shaped(v) && k < |v.slots| ensures inv(PromptTurn(cfg, o, v, k).work, k + 1) {
      TurnPlacesOn(cfg, o, v, k);
      PlacedSinceAgain(cfg, w, v, PromptTurn(cfg, o, v, k).work);
    }
    var _ := PromptsKeep(cfg, o, w, i, PromptsFrom(cfg, o, w, i), inv);
  }

  /** Since turn `i`, which slot `i` of `start` was busy in, there is less to do. */
  ghost predicate LessSince(cfg: Config, start: Work, i: nat, w: Work, k: nat) {
    if k <= i then k == i && w == start else PlacedSince(cfg, start, w) && Less(cfg, start.slots, w.slots)
  }

  lemma TurnLessens(cfg: Config, o: Oracle, start: Work, i: nat, w: Work, k: nat)
    requires AllPlaced(cfg, start) && i < |start.slots| && start.batch == [] && start.batched.None?
    requires HasPrompt(start.slots[i]) && Shaped(w) && k < |w.slots| && o.removes(k) && LessSince(cfg, start, i, w, k)
    ensures LessSince(cfg, start, i, PromptTurn(cfg, o, w, k).work, k + 1)
  {
    TurnPlacesOn(cfg, o, w, k);
    if k > i { PlacedSinceAgain(cfg, start, w, PromptTurn(cfg, o, w, k).work); }
  }

  lemma BusyTurnGetsOn(cfg: Config, o: Oracle, w: Work, i: nat)
    requires AllPlaced(cfg, w) && i < |w.slots| && w.batch == [] && w.batched.None? && forall k: nat :: o.removes(k)
    requires HasPrompt(w.slots[i])
    ensures Less(cfg, w.slots, PromptsFrom(cfg, o, w, i).slots)
  {
    var inv := (v: Work, k: nat) => LessSince(cfg, w, i, v, k);
    forall v: Work, k: nat | inv(v, k) && Shaped(v) && k < |v.slots| ensures inv(PromptTurn(cfg, o, v, k).work, k + 1) {
      TurnLessens(cfg, o, w, i, v, k);
    }
    var end := PromptsKeep(cfg, o, w, i, PromptsFrom(cfg, o, w, i), inv);
  }

  lemma IdleTurnIsIdle(cfg: Config, o: Oracle, w: Work, i: nat)
    requires Shaped(w) && i < |w.slots| && w.batch == [] && !Processing(w.slots[i])
    ensures PromptsFrom(cfg, o, w, i) == PromptsFrom(cfg, o, w, i + 1)
  {
  }

  /** With an empty batch the first busy slot gets on with its prompt. */
  lemma {:induction false} FirstPromptGetsOn(cfg: Config, o: Oracle, w: Work, i: nat)
    requires AllPlaced(cfg, w) && i <= |w.slots| && w.batch == [] && w.batched.None? && forall k: nat :: o.removes(k)
    requires forall k :: 0 <= k < |w.slots| ==> w.slots[k].phase != Generating
    requires exists k :: i <= k < |w.slots| && Processing(w.slots[k])
    ensures Less(cfg, w.slots, PromptsFrom(cfg, o, w, i).slots)
    decreases |w.slots| - i
  {
    if Processing(w.slots[i]) {
      assert Placed(cfg, w.slots[i], 0);
      BusyTurnGetsOn(cfg, o, w, i);
    } else {
      IdleTurnIsIdle(cfg, o, w, i);
      FirstPromptGetsOn(cfg, o, w, i + 1);
    }
  }

  // ------------------------------------------------------------------ while it is decoded

  /** A slot in the decode loop, `s` in the finished batch and `t` now: its entry is still ahead, or it got on. */
  predicate Passed(cfg: Config, s: Slot, t: Slot, at: nat) {
    && Spent(cfg, s, t) && (IsReady(t) ==> IsReady(s) && at <= t.iBatch == s.iBatch)
    && (t != s ==> t.phase == Idle || t.phase == Generating) && (t.phase == DonePrompt ==> t == s)
  }

  ghost predicate AllPassed(cfg: Config, a: seq<Slot>, b: seq<Slot>, at: nat) {
    |b| == |a| && forall k :: 0 <= k < |a| ==> Passed(cfg, a[k], b[k], at)
  }

  lemma HandledSlotPasses(cfg: Config, s: Slot, smp: Sample)
    requires IsReady(s) && (s.phase == DonePrompt ==> s.nDecoded == 0)
    ensures var t := HandledSlot(cfg, s, smp);
            Spent(cfg, s, t) && t.iBatch == -1 && (t.phase == Idle || t.phase == Generating)
  {
    if !(s.phase == DonePrompt && NonCausal(s)) {
      TokenSpendsBudget(cfg, s, smp);
      ProcessTokenStops(cfg, Counted(s), smp);
    }
  }

  lemma HandleStepPasses(cfg: Config, o: Oracle, call: nat, start: nat, count: nat, w: Work, i: nat, s: Slot, n: nat)
    requires Shaped(w) && i < |w.slots| && Placed(cfg, s, n) && Passed(cfg, s, w.slots[i], start)
    ensures Passed(cfg, s, HandleStep(cfg, o, call, start, count, w, i).slots[i], start + count)
  {
    HandleStepShape(cfg, o, call, start, count, w, i);
    if IsReady(w.slots[i]) && InView(w.slots[i], start, count) {
      HandledSlotPasses(cfg, w.slots[i], o.samples(call, i));
    }
  }

  lemma {:induction false} HandlePasses(cfg: Config, o: Oracle, call: nat, start: nat, count: nat, w0: Work, w: Work,
        i: nat)
    requires AllPlaced(cfg, w0) && Shaped(w) && |w.slots| == |w0.slots| && i <= |w.slots|
    requires forall k :: 0 <= k < |w.slots| ==>
             Passed(cfg, w0.slots[k], w.slots[k], if k < i then start + count else start)
    ensures AllPassed(cfg, w0.slots, HandleFrom(cfg, o, call, start, count, w, i).slots, start + count)
    decreases |w.slots| - i
  {
    if i < |w.slots| {
      HandleStepShape(cfg, o, call, start, count, w, i);
      HandleStepPasses(cfg, o, call, start, count, w, i, w0.slots[i], |w0.batch|);
      hide HandleStep, HandledSlot, Passed, AllPlaced;
      HandlePasses(cfg, o, call, start, count, w0, HandleStep(cfg, o, call, start, count, w, i), i + 1);
    }
  }

  /** A speculative step gets on by at least a token. */
  lemma SpeculatePasses(cfg: Config, o: Oracle, call: nat, w: Work, i: nat, s: Slot, at: nat)
    requires Shaped(w) && i < |w.slots| && BudgetOk(cfg, s) && Passed(cfg, s, w.slots[i], at)
    ensures var r := SpeculateStep(cfg, o, call, w, i);
            && Passed(cfg, s, r.slots[i], at)
            && (forall k :: 0 <= k < |w.slots| && k != i ==> r.slots[k] == w.slots[k])
  {
    var t := w.slots[i];
    if Speculates(cfg, o, call, t, i) {
      var draft := Draft(cfg, o, call, t, i);
      var ids := AcceptedIds(o, call, i, draft);
      var v := Put(w, i, Advanced(t, ids)).(kv := w.kv[i := AdvancedKv(t, w.kv[i], draft, ids, InForce(w),
        o.verifies(call, i))]);
      EmitKeeps(cfg, v, i, ids, 0);
    }
  }

  lemma {:induction false} SpeculationPasses(cfg: Config, o: Oracle, call: nat, w0: Work, w: Work, i: nat, at: nat)
    requires AllPlaced(cfg, w0) && Shaped(w) && i <= |w.slots| && AllPassed(cfg, w0.slots, w.slots, at)
    ensures AllPassed(cfg, w0.slots, SpeculateFrom(cfg, o, call, w, i).slots, at)
    decreases |w.slots| - i
  {
    if i < |w.slots| {
      assert BudgetOk(cfg, w0.slots[i]);
      hide SpeculateStep, Passed, BudgetOk, AllPlaced;
      SpeculatePasses(cfg, o, call, w, i, w0.slots[i], at);
      SpeculationPasses(cfg, o, call, w0, SpeculateStep(cfg, o, call, w, i), i + 1, at);
    }
  }

  /** What the decode loop makes of the slots: ready ones get on, the others stay or get on; or all become idle. */
  ghost predicate GotOn(cfg: Config, w0: Work, r: Outcome) {
    if r.fatal then |r.work.slots| == |w0.slots| && AllIdle(r.work.slots)
    else AllPassed(cfg, w0.slots, r.work.slots, |w0.batch|)
  }

  lemma ViewPasses(cfg: Config, o: Oracle, call: nat, start: nat, count: nat, w0: Work, w: Work)
    requires AllPlaced(cfg, w0) && Shaped(w) && start + count <= |w.batch|
    requires AllPassed(cfg, w0.slots, w.slots, start)
    ensures AllPassed(cfg, w0.slots, ViewDone(cfg, o, call, start, count, w).slots, start + count)
  {
    var d := ViewDecoded(w, start, count);
    HandlePasses(cfg, o, call, start, count, w0, d, 0);
    if cfg.hasDraft {
      SpeculationPasses(cfg, o, call, w0, HandleFrom(cfg, o, call, start, count, d, 0), 0, start + count);
    }
  }

  lemma {:induction false} DecodePasses(cfg: Config, o: Oracle, w0: Work, l: Loop)
    requires AllPlaced(cfg, w0) && l.nBatch >= 1
    requires Shaped(l.work) && l.work.batch == w0.batch && l.i <= |w0.batch|
             && AllPassed(cfg, w0.slots, l.work.slots, l.i)
    ensures GotOn(cfg, w0, DecodeFrom(cfg, o, l))
    decreases |l.work.batch| - l.i, l.nBatch
  {
    match DecodeTurn(cfg, o, l)
    case Stop(_) => GiveUpKeeps(l.work, 0);
    case Again(m) =>
      if o.decodes(l.call) == 0 {
        var count := Min(l.nBatch, |l.work.batch| - l.i);
        ViewTurnIs(cfg, o, l, count);
        ViewPasses(cfg, o, l.call, l.i, count, w0, l.work);
      }
      DecodePasses(cfg, o, w0, m);
  }

  // ------------------------------------------------------------------ the whole call

  /** What the decode loop makes of a sound batch: slots are ready again, have no more to do, and less if the batch
      held anything. */
  lemma DecodedIsReady(cfg: Config, w0: Work, r: Outcome)
    requires AllPlaced(cfg, w0) && GotOn(cfg, w0, r)
    ensures AllReady(cfg, r.work.slots)
    ensures NoMore(cfg, w0.slots, r.work.slots)
    ensures (exists k :: 0 <= k < |w0.slots| && IsReady(w0.slots[k])) ==> Less(cfg, w0.slots, r.work.slots)
  {
    forall k | 0 <= k < |w0.slots|
      ensures Ready(cfg, r.work.slots[k])
      ensures Load(cfg, r.work.slots[k]) <= Load(cfg, w0.slots[k])
      ensures IsReady(w0.slots[k]) ==> Load(cfg, r.work.slots[k]) < Load(cfg, w0.slots[k])
    {
      assert Placed(cfg, w0.slots[k], |w0.batch|) && BudgetOk(cfg, w0.slots[k]);
      if !r.fatal { assert Passed(cfg, w0.slots[k], r.work.slots[k], |w0.batch|); }
    }
  }

  lemma NoMoreAgain(cfg: Config, a: seq<Slot>, b: seq<Slot>, c: seq<Slot>)
    requires NoMore(cfg, a, b) && NoMore(cfg, b, c)
    ensures NoMore(cfg, a, c)
    ensures Less(cfg, a, b) || Less(cfg, b, c) ==> Less(cfg, a, c)
  {
    if Less(cfg, a, b) {
      var i :| 0 <= i < |a| && Load(cfg, b[i]) < Load(cfg, a[i]);
      assert Load(cfg, c[i]) < Load(cfg, a[i]);
    } else if Less(cfg, b, c) {
      var i :| 0 <= i < |b| && Load(cfg, c[i]) < Load(cfg, b[i]);
      assert Load(cfg, c[i]) < Load(cfg, a[i]);
    }
  }

  lemma ShiftedPlaced(cfg: Config, w: Work)
    requires Shaped(w) && AllReady(cfg, w.slots)
    ensures var v := ShiftFrom(cfg, w, 0).(batch := [], logits := [], batched := None);
            AllPlaced(cfg, v) && NoMore(cfg, w.slots, v.slots)
              && forall k :: 0 <= k < |v.slots| ==> !IsReady(v.slots[k])
  {
    ShiftFromEases(cfg, w, 0);
    var v := ShiftFrom(cfg, w, 0).(batch := [], logits := [], batched := None);
    forall k | 0 <= k < |v.slots|
      ensures Placed(cfg, v.slots[k], 0) && BudgetOk(cfg, v.slots[k]) && !IsReady(v.slots[k])
    {
      assert Ready(cfg, w.slots[k]) && Eased(cfg, w.slots[k], ShiftFrom(cfg, w, 0).slots[k]);
    }
  }

  lemma SampledNoMore(cfg: Config, w: Work)
    requires Shaped(w)
    ensures NoMore(cfg, w.slots, SampledFrom(w, 0).slots)
  {
    SampledFromEases(cfg, w, 0);
  }

  /** Some busy slot stays busy or gets on while the batch is built. */
  lemma BuiltGetsOn(cfg: Config, o: Oracle, w: Work)
    requires Shaped(w) && AllReady(cfg, w.slots) && !AllIdle(w.slots) && forall k: nat :: o.removes(k)
    ensures var r := BuiltFrom(cfg, o, w);
            && AllPlaced(cfg, r) && NoMore(cfg, w.slots, r.slots)
            && (Less(cfg, w.slots, r.slots) || exists k :: 0 <= k < |r.slots| && IsReady(r.slots[k]))
  {
    var a := ShiftFrom(cfg, w, 0).(batch := [], logits := [], batched := None);
    ShiftedPlaced(cfg, w);
    SampledPlaces(cfg, a, 0);
    SampledNoMore(cfg, a);
    var b := SampledFrom(a, 0);
    NoMoreAgain(cfg, w.slots, a.slots, b.slots);
    PromptsGetOn(cfg, o, b);
    var r := BuiltFrom(cfg, o, w);
    NoMoreAgain(cfg, w.slots, b.slots, r.slots);
    if AllIdle(b.slots) { BusyToIdle(cfg, w.slots, b.slots); }
  }

  lemma BusyToIdle(cfg: Config, a: seq<Slot>, b: seq<Slot>)
    requires AllReady(cfg, a) && !AllIdle(a) && AllIdle(b) && NoMore(cfg, a, b)
    ensures Less(cfg, a, b)
  {
    var k :| 0 <= k < |a| && Processing(a[k]);
    assert Ready(cfg, a[k]);
    BusyHasLoad(cfg, a[k]);
    assert Load(cfg, b[k]) < Load(cfg, a[k]);
  }

  lemma PromptsGetOn(cfg: Config, o: Oracle, w: Work)
    requires AllPlaced(cfg, w) && forall k: nat :: o.removes(k)
    requires w.batch == [] ==> w.batched.None? && forall k :: 0 <= k < |w.slots| ==> w.slots[k].phase != Generating
    requires w.batch != [] ==> exists k :: 0 <= k < |w.slots| && IsReady(w.slots[k])
    ensures var r := Prompts(cfg, o, w);
            && AllPlaced(cfg, r) && NoMore(cfg, w.slots, r.slots)
            && (AllIdle(w.slots) || Less(cfg, w.slots, r.slots)
                || exists k :: 0 <= k < |r.slots| && IsReady(r.slots[k]))
  {
    PromptsPlace(cfg, o, w, 0);
    if w.batch != [] {
      var k :| 0 <= k < |w.slots| && IsReady(w.slots[k]);
      assert IsReady(Prompts(cfg, o, w).slots[k]);
    } else if !AllIdle(w.slots) {
      FirstPromptGetsOn(cfg, o, w, 0);
    }
  }

  /** Every call with a busy slot lowers the work that is left: tokens to take in, tokens to generate, and steps
      between. It keeps every slot within its budget. */
  lemma UpdateMakesProgress(cfg: Config, sv: Server, o: Oracle)
    requires Valid(sv) && AllReady(cfg, sv.slots) && !AllIdle(sv.slots) && forall k: nat :: o.removes(k)
    ensures var r := Update(cfg, sv, o).server;
            && AllReady(cfg, r.slots)
            && NoMore(cfg, sv.slots, r.slots)
            && Sum(cfg, r.slots) < Sum(cfg, sv.slots)
  {
    var w := BuiltFrom(cfg, o, Begun(sv));
    BuiltGetsOn(cfg, o, Begun(sv));
    DecodePasses(cfg, o, w, Loop(w, 0, cfg.nBatch, 0));
    var r := DecodeFrom(cfg, o, Loop(w, 0, cfg.nBatch, 0));
    DecodedIsReady(cfg, w, r);
    NoMoreAgain(cfg, sv.slots, w.slots, r.work.slots);
    SumShrinks(cfg, sv.slots, r.work.slots);
  }

  // ------------------------------------------------------------------ why partial removals must work

  /** Where a partial removal fails, a causal prompt starts again. Alone in the batch it is then done in this turn
      exactly if it fits one batch. */
  lemma FailingRemovalStallsExactly(cfg: Config, o: Oracle, w: Work, i: nat)
    requires Shaped(w) && i < |w.slots| && w.batch == [] && w.slots[i].phase == ProcessingPrompt
    requires PromptOk(cfg, w.slots[i]) && !NonCausal(w.slots[i]) && !o.removes(i)
    ensures var s, r := w.slots[i], IngestTurn(cfg, o, w, i).work;
            var t := r.slots[i];
            && (t.phase == DonePrompt <==> |s.prompt| <= cfg.nBatch)
            && (t.phase != DonePrompt ==>
                  && t.phase == ProcessingPrompt && t.nPast == cfg.nBatch == |r.batch|
                  && r.slots == w.slots[i := t] && t == s.(nPast := t.nPast, cache := t.cache))
  {
    var t := Trimmed(w, i, false);
    assert t.slots[i] == w.slots[i].(nPast := 0, cache := t.slots[i].cache) && t.batch == [];
    AddTokensShape(cfg, t, i);
  }

  /** Slot `i` alone works, on a causal prompt longer than a batch. */
  ghost predicate Stalled(cfg: Config, slots: seq<Slot>, i: nat, prompt: seq<Token>) {
    && i < |slots| && (forall k :: 0 <= k < |slots| && k != i ==> !Processing(slots[k]))
    && slots[i].phase == ProcessingPrompt && PromptOk(cfg, slots[i]) && !NonCausal(slots[i])
    && slots[i].prompt == prompt && |prompt| > cfg.nBatch
  }

  lemma {:induction false} NothingToShift(cfg: Config, w: Work, i: nat, k: nat, prompt: seq<Token>)
    requires Shaped(w) && k <= |w.slots| && Stalled(cfg, w.slots, i, prompt)
    ensures ShiftFrom(cfg, w, k) == w
    decreases |w.slots| - k
  {
    if k < |w.slots| { NothingToShift(cfg, w, i, k + 1, prompt); }
  }

  lemma {:induction false} NothingToSample(cfg: Config, w: Work, i: nat, k: nat, prompt: seq<Token>)
    requires Shaped(w) && k <= |w.slots| && Stalled(cfg, w.slots, i, prompt)
    ensures SampledFrom(w, k) == w
    decreases |w.slots| - k
  {
    if k < |w.slots| { NothingToSample(cfg, w, i, k + 1, prompt); }
  }

  lemma {:induction false} PromptsComeTo(cfg: Config, o: Oracle, w: Work, i: nat, k: nat, prompt: seq<Token>)
    requires Shaped(w) && k <= i && Stalled(cfg, w.slots, i, prompt) && w.batch == []
    ensures PromptsFrom(cfg, o, w, k) == PromptsFrom(cfg, o, w, i)
    decreases i - k
  {
    hide PromptsFrom, PromptTurn, PromptOk;
    if k < i {
      IdleTurnIsIdle(cfg, o, w, k);
      PromptsComeTo(cfg, o, w, i, k + 1, prompt);
    }
  }

  lemma StalledTurn(cfg: Config, o: Oracle, w: Work, i: nat, prompt: seq<Token>)
    requires Shaped(w) && Stalled(cfg, w.slots, i, prompt) && w.batch == [] && w.batched.None? && !o.removes(i)
    ensures Stalled(cfg, PromptsFrom(cfg, o, w, i).slots, i, prompt)
  {
    var j := Joined(w, i);
    FailingRemovalStallsExactly(cfg, o, j, i);
    assert PromptTurn(cfg, o, w, i) == IngestTurn(cfg, o, j, i);
    assert PromptTurn(cfg, o, w, i).full;
    hide PromptTurn, IngestTurn, PromptsFrom;
    var next, full := PromptsUnfold(cfg, o, w, i);
    assert full && next.slots == IngestTurn(cfg, o, j, i).work.slots;
  }

  lemma StalledBatch(cfg: Config, o: Oracle, w: Work, i: nat, prompt: seq<Token>)
    requires Shaped(w) && Stalled(cfg, w.slots, i, prompt) && !o.removes(i)
    ensures Stalled(cfg, BuiltFrom(cfg, o, w).slots, i, prompt)
  {
    var v := w.(batch := [], logits := [], batched := None);
    NothingToShift(cfg, w, i, 0, prompt);
    NothingToSample(cfg, v, i, 0, prompt);
    PromptsComeTo(cfg, o, v, i, 0, prompt);
    StalledTurn(cfg, o, v, i, prompt);
    hide PromptsFrom, SampledFrom, ShiftFrom;
    assert BuiltFrom(cfg, o, w) == PromptsFrom(cfg, o, v, 0);
  }

  lemma {:induction false} NothingToHandle(cfg: Config, o: Oracle, call: nat, start: nat, count: nat, w: Work, k: nat)
    requires Shaped(w) && k <= |w.slots| && forall j :: 0 <= j < |w.slots| ==> !Goes(w.slots[j])
    ensures HandleFrom(cfg, o, call, start, count, w, k) == w
    decreases |w.slots| - k
  {
    if k < |w.slots| { NothingToHandle(cfg, o, call, start, count, w, k + 1); }
  }

  lemma {:induction false} NothingToDraft(cfg: Config, o: Oracle, call: nat, w: Work, k: nat)
    requires Shaped(w) && k <= |w.slots| && forall j :: 0 <= j < |w.slots| ==> !Goes(w.slots[j])
    ensures SpeculateFrom(cfg, o, call, w, k) == w
    decreases |w.slots| - k
  {
    if k < |w.slots| { NothingToDraft(cfg, o, call, w, k + 1); }
  }

  /** Decoding leaves slots alone that have nothing to be sampled. */
  lemma {:induction false} NothingComesOfIt(cfg: Config, o: Oracle, l: Loop)
    requires Shaped(l.work) && l.nBatch >= 1 && forall j :: 0 <= j < |l.work.slots| ==> !Goes(l.work.slots[j])
    ensures var r := DecodeFrom(cfg, o, l); !r.fatal ==> r.work.slots == l.work.slots
    decreases |l.work.batch| - l.i, l.nBatch
  {
    match DecodeTurn(cfg, o, l)
    case Stop(_) =>
    case Again(m) =>
      if o.decodes(l.call) == 0 {
        var count := Min(l.nBatch, |l.work.batch| - l.i);
        var d := ViewDecoded(l.work, l.i, count);
        ViewTurnIs(cfg, o, l, count);
        NothingToHandle(cfg, o, l.call, l.i, count, d, 0);
        NothingToDraft(cfg, o, l.call, d, 0);
        hide HandleFrom, SpeculateFrom, DecodeTurn, DecodeFrom;
        assert m.work.slots == l.work.slots;
      }
      NothingComesOfIt(cfg, o, m);
  }

  function AfterCalls(cfg: Config, sv: Server, os: seq<Oracle>): (r: Server)
    requires Valid(sv)
    ensures Valid(r) && |r.slots| == |sv.slots|
    decreases |os|
  {
    if os == [] then sv else Update(cfg, AfterCalls(cfg, sv, os[..|os| - 1]), os[|os| - 1]).server
  }

  predicate NoneFatal(cfg: Config, sv: Server, os: seq<Oracle>)
    requires Valid(sv)
    decreases |os|
  {
    os == [] || (NoneFatal(cfg, sv, os[..|os| - 1])
      && !Update(cfg, AfterCalls(cfg, sv, os[..|os| - 1]), os[|os| - 1]).fatal)
  }

  lemma StalledCall(cfg: Config, sv: Server, o: Oracle, i: nat, prompt: seq<Token>)
    requires Valid(sv) && Stalled(cfg, sv.slots, i, prompt) && !o.removes(i) && !Update(cfg, sv, o).fatal
    ensures Stalled(cfg, Update(cfg, sv, o).server.slots, i, prompt)
  {
    var w := BuiltFrom(cfg, o, Begun(sv));
    assert Processing(sv.slots[i]);
    StalledBatch(cfg, o, Begun(sv), i, prompt);
    hide BuiltFrom, DecodeFrom;
    NothingComesOfIt(cfg, o, Loop(w, 0, cfg.nBatch, 0));
  }

  /** A prompt longer than a batch then never gets in, however many calls are made, as long as decoding does not fail
      for good. */
  lemma {:induction false} FailingRemovalStallsForEver(cfg: Config, sv: Server, os: seq<Oracle>, i: nat,
        prompt: seq<Token>)
    requires Valid(sv) && Stalled(cfg, sv.slots, i, prompt) && NoneFatal(cfg, sv, os)
    requires forall k :: 0 <= k < |os| ==> !os[k].removes(i)
    ensures Stalled(cfg, AfterCalls(cfg, sv, os).slots, i, prompt)
    decreases |os|
  {
    if os != [] {
      FailingRemovalStallsForEver(cfg, sv, os[..|os| - 1], i, prompt);
      hide Update;
      StalledCall(cfg, AfterCalls(cfg, sv, os[..|os| - 1]), os[|os| - 1], i, prompt);
    }
  }
}
