/** A speculative step: a draft is decoded behind the sampled token, a beginning of it is accepted, and the rest
    is removed again. */
module Speculation {
  import opened StopWords
  import opened TextStream
  import opened Indentation
  import opened KvCache
  import opened Slots
  import opened UpdateSlots
  import opened ServerInvariant
  import opened Budget

  // ------------------------------------------------------------------ cells

  /** Decoding `toks` from `pos` on fills just these positions. */
  lemma {:induction false} PlacedAt(kv: Kv, pos: nat, toks: seq<Token>, effect: Effect, p: nat)
    ensures var r := PlacedCells(kv, pos, toks, effect);
            && (p in r <==> p in kv || pos <= p < pos + |toks|)
            && (p in r ==> r[p] == if pos <= p < pos + |toks| then Cell(toks[p - pos], effect) else kv[p])
    decreases |toks|
  {
    if toks != [] { PlacedAt(kv[pos := Cell(toks[0], effect)], pos + 1, toks[1..], effect, p); }
  }

  /** Tokens are decoded behind the cached ones, and what comes after the first `n` is removed again. */
  lemma PlacedCovers(kv: Kv, cache: seq<Token>, toks: seq<Token>, n: nat, lo: int, hi: int, effect: Effect, own: Effect)
    requires |cache| <= n <= |cache| + |toks| && hi <= |cache| && effect == own
    requires CoversBut(kv, cache, lo, hi, own)
    ensures var next := SeqRm(PlacedCells(kv, |cache|, toks, effect), n, -1);
            CoversBut(next, (cache + toks)[..n], lo, hi, own) && forall p :: p in next ==> p < n
  {
    var next, more := SeqRm(PlacedCells(kv, |cache|, toks, effect), n, -1), (cache + toks)[..n];
    forall p: nat
      ensures p < n && !(lo <= p < hi) ==> Holds(next, p, more[p], own)
      ensures p in next ==> !(lo <= p < hi)
    {
      PlacedAt(kv, |cache|, toks, effect, p);
      if p < |cache| && !(lo <= p < hi) { assert Holds(kv, p, cache[p], own); }
    }
  }

  /** The draft limit leaves room for one token more, and spends no more than the budget. */
  lemma DraftIsBounded(cfg: Config, o: Oracle, call: nat, s: Slot, i: nat)
    requires Speculates(cfg, o, call, s, i)
    ensures |Draft(cfg, o, call, s, i)| <= DraftMax(cfg, s) <= cfg.nCtx - s.nPast - 2
    ensures s.nRemaining > 0 ==> |Draft(cfg, o, call, s, i)| <= s.nRemaining - 1
  {
  }

  /** When a slot speculates, and with which draft: it generates and caches its prompt, there is a draft model, and a
      draft of the least size wanted is there and fits into every limit: the task's, the window with one place left
      free, and what is left of a finite budget but one token. The draft is cut to the tightest of these, and accepted
      as far as the sampler agrees, with one token of its own behind. */
  lemma SpeculatesExactly(cfg: Config, o: Oracle, call: nat, s: Slot, i: nat)
    ensures var given, draft := o.drafts(call, i), Draft(cfg, o, call, s, i);
            && (Speculates(cfg, o, call, s, i)
                <==> s.phase == Generating && cfg.hasDraft && s.params.cachePrompt && s.params.specMax > 0
                     && s.params.specMin <= |given| && FitsLimits(cfg, s, s.params.specMin))
            && (Speculates(cfg, o, call, s, i) ==>
                  draft <= given && FitsLimits(cfg, s, |draft|)
                  && (|draft| == |given| || !FitsLimits(cfg, s, |draft| + 1)))
    ensures var draft, ids := Draft(cfg, o, call, s, i), StepIds(cfg, o, call, s, i);
            && |ids| <= |draft| + 1 && |ids| <= o.accepts(call, i) + 1
            && (|ids| == |draft| + 1 || |ids| == o.accepts(call, i) + 1)
            && (forall j :: 0 <= j < |ids| - 1 ==> ids[j] == o.follows(call, i, j).(tok := draft[j]))
            && ids[|ids| - 1] == o.follows(call, i, |ids| - 1)
  {
  }

  /** A draft of `n` tokens is within the task's limit, the window and the budget. */
  predicate FitsLimits(cfg: Config, s: Slot, n: nat) {
    n <= s.params.specMax && s.nPast + 1 + n < cfg.nCtx && (s.nRemaining > 0 ==> n < s.nRemaining)
  }

  /** What a speculative step makes of cached tokens and `n_past`. */
  lemma AdvancedCache(cfg: Config, o: Oracle, call: nat, s: Slot, i: nat)
    requires PhaseOk(cfg, s) && s.nPast == |s.cache| && Speculates(cfg, o, call, s, i)
    ensures var draft := Draft(cfg, o, call, s, i);
            var ids := AcceptedIds(o, call, i, draft);
            var t := Advanced(s, ids);
            && t.cache == s.cache + [s.sampled] + Toks(ids)[..|ids| - 1]
            && t.cache == (s.cache + [s.sampled] + draft)[..s.nPast + |ids|]
            && t.nPast == |t.cache| <= cfg.nCtx - 1
            && (BudgetOk(cfg, s) && Finite(cfg, s) ==> t.nDecoded <= Bound(cfg, s))
  {
    DraftIsBounded(cfg, o, call, s, i);
  }

  /** The cells follow the cached tokens, also while entries of the slot at `[lo, hi)` are still to be decoded. */
  lemma AdvancedCells(cfg: Config, o: Oracle, call: nat, s: Slot, kv: Kv, i: nat, lo: int, hi: int, effect: Effect)
    requires PhaseOk(cfg, s) && s.nPast == |s.cache| && Speculates(cfg, o, call, s, i) && effect == Effective(s.lora)
    requires hi <= s.nPast && CoversBut(kv, s.cache, lo, hi, Effective(s.lora))
    ensures var draft := Draft(cfg, o, call, s, i);
            var ids := AcceptedIds(o, call, i, draft);
            var t, next := Advanced(s, ids), AdvancedKv(s, kv, draft, ids, effect, true);
            && CoversBut(next, t.cache, lo, hi, Effective(t.lora))
            && (forall p :: p in next ==> p < t.nPast)
  {
    var draft := Draft(cfg, o, call, s, i);
    var ids := AcceptedIds(o, call, i, draft);
    hide CoversBut, PlacedCells, SeqRm, Draft, AcceptedIds, Toks, PhaseOk, Speculates;
    AdvancedCache(cfg, o, call, s, i);
    assert s.cache + ([s.sampled] + draft) == s.cache + [s.sampled] + draft;
    PlacedCovers(kv, s.cache, [s.sampled] + draft, s.nPast + |ids|, lo, hi, effect, Effective(s.lora));
  }

  /** A speculative step is right: the cached tokens grow by the sampled token and all but the last accepted one,
      the cells are exactly these, the window is not overrun, and neither is a finite budget. */
  lemma AdvancedIsRight(cfg: Config, o: Oracle, call: nat, s: Slot, kv: Kv, i: nat, effect: Effect)
    requires PhaseOk(cfg, s) && s.nPast == |s.cache| && Mirrors(kv, s.cache, Effective(s.lora))
    requires Speculates(cfg, o, call, s, i) && effect == Effective(s.lora)
    ensures var draft := Draft(cfg, o, call, s, i);
            var ids := AcceptedIds(o, call, i, draft);
            var t := Advanced(s, ids);
            && t.cache == s.cache + [s.sampled] + Toks(ids)[..|ids| - 1]
            && t.nPast == |t.cache| <= cfg.nCtx - 1
            && Mirrors(AdvancedKv(s, kv, draft, ids, effect, true), t.cache, Effective(t.lora))
            && (BudgetOk(cfg, s) && Finite(cfg, s) ==> t.nDecoded <= Bound(cfg, s))
  {
    AdvancedCache(cfg, o, call, s, i);
    AdvancedCells(cfg, o, call, s, kv, i, 0, 0, effect);
  }

  /** The source does not look at whether the draft could be decoded, and decodes it under the adapters of the slot that
      set the pace of the last batch. The slot's cells are afterwards its own exactly if decoding succeeded and these
      adapters equal the slot's; `DecodeLoop.GeneratingIsInForce` shows that they always do. */
  lemma SpeculationKeepsCellsExactly(cfg: Config, o: Oracle, call: nat, s: Slot, kv: Kv, i: nat, effect: Effect,
        ok: bool)
    requires PhaseOk(cfg, s) && s.nPast == |s.cache| && Mirrors(kv, s.cache, Effective(s.lora))
    requires Speculates(cfg, o, call, s, i)
    ensures var draft := Draft(cfg, o, call, s, i);
            var ids := AcceptedIds(o, call, i, draft);
            Mirrors(AdvancedKv(s, kv, draft, ids, effect, ok), Advanced(s, ids).cache, Effective(s.lora))
            <==> ok && effect == Effective(s.lora)
  {
    var draft := Draft(cfg, o, call, s, i);
    var ids := AcceptedIds(o, call, i, draft);
    var t, next := Advanced(s, ids), AdvancedKv(s, kv, draft, ids, effect, ok);
    if ok && effect == Effective(s.lora) {
      AdvancedIsRight(cfg, o, call, s, kv, i, effect);
    } else {
      PlacedAt(kv, s.nPast, [s.sampled] + draft, effect, s.nPast);
      assert !Holds(next, s.nPast, t.cache[s.nPast], Effective(s.lora));
    }
  }

  /** A slot whose sampled token is in the batch, `s`, may speculate after a view that did not hold its entry. The token
      is then cached a second time, behind the one that still waits in the batch; cells and cached tokens go on
      agreeing. `EarlyDrafts.EarlyDraftExactly` says when this happens. */
  lemma EarlyDraftRepeatsToken(a: Slot, s: Slot, ids: seq<Sample>)
    requires s == Grown(a.(iBatch := s.iBatch), a.sampled) && ids != []
    requires a.params.cachePrompt && a.nPast == |a.cache|
    ensures var n, t := a.nPast, Advanced(s, ids);
            |t.cache| > |s.cache| == n + 1 && t.cache[n] == t.cache[n + 1] == a.sampled
  {
  }

  // ------------------------------------------------------------------ telling the accepted tokens

  /** Telling tokens leaves the cells and the other slots alone; what is let through is within the bound. */
  ghost predicate Emitted(cfg: Config, w: Work, r: Work, i: nat) {
    && Shaped(w) && Shaped(r) && i < |w.slots| == |r.slots| && r.kv == w.kv && r.batched == w.batched
    && (forall k :: 0 <= k < |w.slots| && k != i ==> r.slots[k] == w.slots[k])
    && var s, t := w.slots[i], r.slots[i];
    && SameRun(s, t) && t.nDecoded == s.nDecoded && t.iBatch == s.iBatch
    && (t.phase == s.phase || t.phase == Idle)
  }

  lemma {:induction false} EmitKeeps(cfg: Config, w: Work, i: nat, ids: seq<Sample>, j: nat)
    requires Shaped(w) && i < |w.slots| && j <= |ids| && w.slots[i].nDecoded >= 1
    ensures var r := EmitFrom(cfg, w, i, ids, j);
            && Emitted(cfg, w, r, i)
            && (j < |ids| || BudgetOk(cfg, w.slots[i]) ==> BudgetOk(cfg, r.slots[i]))
    decreases |ids| - j
  {
    if j < |ids| {
      var p := ProcessToken(cfg, w.slots[i], ids[j]);
      ProcessTokenStops(cfg, w.slots[i], ids[j]);
      if p.slot.text.hasNext { EmitKeeps(cfg, Concluded(w, i, p), i, ids, j + 1); }
    }
  }

  /** How many of the accepted tokens are processed from the `j`-th on: `s` is the slot then. */
  function Told(cfg: Config, s: Slot, ids: seq<Sample>, j: nat): (n: nat)
    requires j <= |ids|
    ensures n <= |ids| - j
    decreases |ids| - j
  {
    if j == |ids| then 0 else
    var p := ProcessToken(cfg, s, ids[j]);
    1 + if p.slot.text.hasNext then Told(cfg, p.slot, ids, j + 1) else 0
  }

  /** Tokens that are not processed leave no trace. */
  lemma {:induction false} OnlyToldMatter(cfg: Config, w: Work, i: nat, ids: seq<Sample>, j: nat, to: nat)
    requires Shaped(w) && i < |w.slots| && j <= to <= |ids| && to == j + Told(cfg, w.slots[i], ids, j)
    ensures EmitFrom(cfg, w, i, ids, j) == EmitFrom(cfg, w, i, ids[..to], j)
    decreases |ids| - j
  {
    if j < |ids| {
      var p := ProcessToken(cfg, w.slots[i], ids[j]);
      if p.slot.text.hasNext { OnlyToldMatter(cfg, Concluded(w, i, p), i, ids, j + 1, to); }
    } else {
      assert ids[..to] == ids;
    }
  }

  /** The text after a token, budget and window apart. */
  function TokenText(t: TextState, p: Params, smp: Sample): TextState {
    var a := Accept(t, smp.piece, p.stops);
    LinesChecked(a.text, p.nIndent, smp.late, a.shown)
  }

  /** Nothing about the tokens themselves ends the task: they complete no stop word, are no end tokens, and keep to the
      limits of time and indentation. */
  predicate Unremarkable(t: TextState, p: Params, ids: seq<Sample>, j: nat)
    requires j <= |ids|
    decreases |ids| - j
  {
    j == |ids|
    || (!ids[j].eog && TokenText(t, p, ids[j]).hasNext && Unremarkable(TokenText(t, p, ids[j]), p, ids, j + 1))
  }

  lemma UnremarkableStopsExactly(cfg: Config, s: Slot, smp: Sample)
    requires !smp.eog && TokenText(s.text, s.params, smp).hasNext && s.nDecoded >= 1 && s.nPast < cfg.nCtx
    ensures var t := ProcessToken(cfg, s, smp).slot;
            && (t.text.hasNext <==> s.nDecoded < Bound(cfg, s))
            && (t.text.hasNext ==> t.text == TokenText(s.text, s.params, smp))
            && t.text.gen == TokenText(s.text, s.params, smp).gen && (!t.text.hasNext ==> t.text.stop == Limit)
  {
    var a := Accept(s.text, smp.piece, s.params.stops);
    hide Accept, Find, Blanks;
    assert a.text.hasNext;
  }

  lemma {:induction false} ToldToTheEnd(cfg: Config, s: Slot, ids: seq<Sample>, j: nat)
    requires s.nDecoded >= 1 && s.nPast < cfg.nCtx && j <= |ids| && Unremarkable(s.text, s.params, ids, j)
    ensures Told(cfg, s, ids, j) == if j == |ids| then 0 else if s.nDecoded < Bound(cfg, s) then |ids| - j else 1
    decreases |ids| - j
  {
    if j < |ids| {
      UnremarkableStopsExactly(cfg, s, ids[j]);
      ProcessTokenStops(cfg, s, ids[j]);
      var t := ProcessToken(cfg, s, ids[j]).slot;
      hide ProcessToken, TokenText;
      if t.text.hasNext { ToldToTheEnd(cfg, t, ids, j + 1); }
    }
  }

  /** The accepted tokens of a step are counted in `n_decoded` before the first of them is processed. Of tokens that
      do not end the task themselves, all are processed exactly if there is one, or the bound is not reached;
      otherwise the first stops at the limit, and the others never reach the text. */
  lemma SpentBudgetDropsExactly(cfg: Config, o: Oracle, call: nat, s: Slot, i: nat)
    requires PhaseOk(cfg, s) && s.nPast == |s.cache| && BudgetOk(cfg, s) && Speculates(cfg, o, call, s, i)
    requires Unremarkable(s.text, s.params, StepIds(cfg, o, call, s, i), 0)
    ensures var ids := StepIds(cfg, o, call, s, i);
            var told := Told(cfg, Advanced(s, ids), ids, 0);
            && (told == |ids| <==> |ids| == 1 || s.nDecoded + |ids| < Bound(cfg, s))
            && (told != |ids| ==> told == 1)
  {
    var ids := StepIds(cfg, o, call, s, i);
    AdvancedCache(cfg, o, call, s, i);
    ToldToTheEnd(cfg, Advanced(s, ids), ids, 0);
  }

  function StepIds(cfg: Config, o: Oracle, call: nat, s: Slot, i: nat): (ids: seq<Sample>)
    ensures ids != []
  {
    AcceptedIds(o, call, i, Draft(cfg, o, call, s, i))
  }

  /** With a finite limit the draft limit lets a step use up exactly what is left, and it does so exactly if as many
      tokens are accepted; without one nothing keeps the step within the training context. */
  lemma StepSpendsBudgetExactly(cfg: Config, o: Oracle, call: nat, s: Slot, i: nat)
    requires PhaseOk(cfg, s) && BudgetOk(cfg, s) && Speculates(cfg, o, call, s, i)
    ensures var ids := StepIds(cfg, o, call, s, i);
            && (Finite(cfg, s) ==> |ids| <= s.nRemaining)
            && (Finite(cfg, s) ==> (s.nDecoded + |ids| >= Bound(cfg, s) <==> |ids| == s.nRemaining))
            && (!Finite(cfg, s) ==>
                  (s.nDecoded + |ids| >= Bound(cfg, s) <==> s.nPromptTokens + s.nDecoded + |ids| >= cfg.nCtxTrain))
  {
    DraftIsBounded(cfg, o, call, s, i);
  }
}
