/** A task up to its prompt, in plain fields: what a launch makes of a slot, when and why a prompt is refused, and where
    one that is taken starts. */
module PromptRules {
  import opened TextStream
  import opened KvCache
  import opened PromptReuse
  import opened Slots
  import opened UpdateSlots

  /** Adapters that agree in pointers and scales, one by one. */
  predicate SameAdapters(a: Lora, b: Lora) {
    |a| == |b| && forall k :: 0 <= k < |a| ==> a[k].ptr == b[k].ptr && a[k].scale == b[k].scale
  }

  lemma EffectiveExactly(a: Lora, b: Lora)
    ensures Effective(a) == Effective(b) <==> SameAdapters(a, b)
  {
    if Effective(a) == Effective(b) {
      forall k | 0 <= k < |a| ensures a[k].ptr == b[k].ptr && a[k].scale == b[k].scale {
        assert Effective(a)[k] == Effective(b)[k];
      }
    }
  }

  /** A launch gives the slot the task and an empty text. The limit of generated tokens is cut to the server's if there
      is one; cached tokens are kept exactly if the adapters stay the same; `n_decoded` keeps its value. */
  lemma LaunchExactly(cfg: Config, s: Slot, task: Task, ok: bool)
    ensures var t, p := Launch(cfg, s, task, ok), task.params;
            && t.idTask == task.id && t.kind == task.kind && t.prompt == task.prompt
            && t.phase == (if ok then Started else s.phase)
            && (cfg.nPredict > 0 ==> t.params.nPredict <= cfg.nPredict)
            && (cfg.nPredict <= 0 || p.nPredict <= cfg.nPredict ==> t.params == p)
            && (p.nPredict > cfg.nPredict > 0 ==> t.params == p.(nPredict := cfg.nPredict))
            && t.cache == (if SameAdapters(p.lora, s.lora) then s.cache else []) && SameAdapters(t.lora, p.lora)
            && t.text.gen == [] && t.text.nSent == 0 && t.text.stop == NoStop
            && !t.text.hasNewLine && t.text.lastNl == 0
            && !t.truncated && t.nPast == 0 && t.nPromptTokens == 0 && t.nDecoded == s.nDecoded
  {
    EffectiveExactly(task.params.lora, s.lora);
    EffectiveExactly(s.lora, task.params.lora);
  }

  /** An embedding or rerank prompt must fit into one physical batch and into the window; another one must leave a place
      of the window free only if context shifting is off; and no prompt may be empty. */
  predicate MustRefuse(cfg: Config, kind: TaskKind, n: nat) {
    || n == 0
    || (if kind == Embedding || kind == Rerank then n > cfg.nUbatch || n > cfg.nCtx else !cfg.ctxShift && n >= cfg.nCtx)
  }

  /** For every slot: when its prompt is refused, and with which answer. The final result of an empty prompt counts the
      tokens that the slot generated for an earlier task. */
  lemma RefusedExactly(cfg: Config, s: Slot, kv: Kv)
    ensures var r, n := OpenPrompt(cfg, s, kv), |s.prompt|;
            && (r.Refused? <==> MustRefuse(cfg, s.kind, n))
            && (r.Refused? ==>
                  && r.slot.phase == Idle && r.slot.idTask == s.idTask && r.slot.cache == s.cache
                  && r.reply == if n == 0
                                then Final(if s.params.stream then [] else s.text.gen, s.text.stop, s.nDecoded)
                                else if s.kind != Embedding && s.kind != Rerank then Error(ContextExceeded)
                                else if n > cfg.nUbatch then Error(BatchTooSmall) else Error(ContextTooSmall))
  {
    hide Fitted, Reused;
  }

  /** The number of tokens to keep in a shift: the task's, or all of the prompt if negative, but with four places
      free. */
  predicate KeepIsClamped(cfg: Config, given: int, n: nat, keep: int) {
    var wanted := if given < 0 then n else given;
    keep <= wanted && keep <= cfg.nCtx - 4 && (keep == wanted || keep == cfg.nCtx - 4)
  }

  /** A prompt that is too long for the window keeps its first `keep` tokens and, of the rest, the shortest tail that is
      left by dropping whole half-windows and is not shorter than one. */
  predicate PromptIsFitted(cfg: Config, was: seq<Token>, now: seq<Token>, keep: int) {
    if |was| < cfg.nCtx then now == was else
    && 0 <= keep <= cfg.nCtx - 4
    && var half := (cfg.nCtx - keep) / 2;
    && keep + half <= |now| < keep + 2 * half && |now| <= |was| && (|was| - |now|) % half == 0
    && now[..keep] == was[..keep] && now[keep..] == was[|was| - (|now| - keep)..]
  }

  /** Where a causal prompt that is taken starts: `t` and `next` are slot and cells afterwards. */
  ghost predicate IsTaken(cfg: Config, s: Slot, kv: Kv, t: Slot, next: Kv) {
    && KeepIsClamped(cfg, s.params.nKeep, |s.prompt|, t.params.nKeep)
    && PromptIsFitted(cfg, s.prompt, t.prompt, t.params.nKeep)
    && t.nPromptTokens == |t.prompt| && (t.truncated <==> s.truncated || |s.prompt| >= cfg.nCtx)
    && (!s.params.cachePrompt ==> t.nPast == 0 && t.cache == s.cache && next == kv)
    && (s.params.cachePrompt ==>
          var r := Reused(s.cache, kv, t.prompt, cfg.nCacheReuse);
          t.cache == r.cache && next == r.kv && t.nPast == if r.nPast < |t.prompt| then r.nPast else |t.prompt| - 1)
  }

  lemma FittedExactly(cfg: Config, s: Slot)
    requires s.nPromptTokens == |s.prompt|
    ensures var t := Fitted(cfg, s);
            && KeepIsClamped(cfg, s.params.nKeep, |s.prompt|, t.params.nKeep)
            && PromptIsFitted(cfg, s.prompt, t.prompt, t.params.nKeep)
            && t.nPromptTokens == |t.prompt| && (t.truncated <==> s.truncated || |s.prompt| >= cfg.nCtx)
            && t == s.(prompt := t.prompt, nPromptTokens := |t.prompt|, truncated := t.truncated,
                       params := s.params.(nKeep := t.params.nKeep))
  {
    var keep := ClampKeep(s.params.nKeep, s.nPromptTokens, cfg.nCtx);
    if |s.prompt| >= cfg.nCtx { TruncationFits(s.prompt, keep, cfg.nCtx); }
    hide Truncated;
  }

  /** A prompt that is not refused is looked at from its beginning, or from where reuse of cached tokens ends, which
      leaves at least one token. */
  lemma TakenExactly(cfg: Config, s: Slot, kv: Kv)
    requires !MustRefuse(cfg, s.kind, |s.prompt|)
    ensures var r := OpenPrompt(cfg, s, kv);
            && r.Opened? && r.slot.phase == ProcessingPrompt
            && (if s.kind == Embedding || s.kind == Rerank
                then r.slot == s.(nPast := 0, nPromptTokens := |s.prompt|, phase := ProcessingPrompt) && r.kv == kv
                else IsTaken(cfg, s, kv, r.slot, r.kv))
  {
    var b := BegunPrompt(s);
    RefusedExactly(cfg, s, kv);
    FittedExactly(cfg, b);
    hide Fitted, Reused, PromptIsFitted;
  }
}
