/** `server_slot` as it is in the source: an object whose fields its methods change. `View` is its value. */
module SlotObject {
  import opened Wrappers
  import opened Utf8
  import opened StopWords
  import opened TextStream
  import opened Indentation
  import opened KvCache
  import opened PromptReuse
  import opened Slots
  import opened UpdateSlots

  class ServerSlot {
    const id: nat
    var idTask: int
    var taskType: TaskKind
    var state: Phase
    var params: Params
    var tLastUsed: int

    var nPast: nat
    var nDecoded: nat
    var nRemaining: int
    var iBatch: int
    var nPromptTokens: nat
    var promptTokens: seq<Token>
    var cacheTokens: seq<Token>
    var lora: Lora
    var sampled: Token
    var truncated: bool

    /** `generated_text`, `n_sent_text`, `has_next_token`, `has_new_line`, `last_nl_pos`, `stop` and
        `stopping_word`. */
    var text: TextState

    constructor (id: nat, params: Params)
      ensures this.id == id && tLastUsed == -1
      ensures View() == Slot(-1, Completion, Idle, params, [], 0, 0, 0, -1, -1, [], [], 0, false, START)
    {
      this.id := id;
      idTask, taskType, state, this.params, tLastUsed := -1, Completion, Idle, params, -1;
      nPast, nDecoded, nRemaining, iBatch, nPromptTokens := 0, 0, -1, -1, 0;
      promptTokens, cacheTokens, lora, sampled, truncated, text := [], [], [], 0, false, START;
    }

    function View(): Slot
      reads this
    {
      Slot(idTask, taskType, state, params, promptTokens, nPromptTokens, nPast, nDecoded, nRemaining, iBatch,
           cacheTokens, lora, sampled, truncated, text)
    }

    // reset
    method Reset()
      modifies this`nPromptTokens, this`text, this`truncated, this`nPast, this`taskType
      ensures View() == Slots.Reset(old(View()))
    {
      nPromptTokens := 0;
      text := text.(gen := [], hasNewLine := false, stop := NoStop, stoppingWord := [], nSent := 0, lastNl := 0);
      truncated := false;
      nPast := 0;
      taskType := Completion;
    }

    // release, without its callback
    method Release(now: int) returns (wasBusy: bool)
      modifies this`state, this`tLastUsed
      ensures View() == Slots.Release(old(View())) && wasBusy == Processing(old(View()))
      ensures tLastUsed == if wasBusy then now else old(tLastUsed)
    {
      wasBusy := state != Idle;
      if wasBusy {
        tLastUsed := now;
        state := Idle;
      }
    }

    // has_budget
    method HasBudget(cfg: Config) returns (ok: bool)
      modifies this`nRemaining
      ensures (ok, nRemaining) == Budget(cfg, old(View()))
    {
      if params.nPredict == -1 && cfg.nPredict == -1 { return true; }
      nRemaining := -1;
      if params.nPredict != -1 {
        nRemaining := params.nPredict - nDecoded;
      } else if cfg.nPredict != -1 {
        nRemaining := cfg.nPredict - nDecoded;
      }
      return nRemaining > 0;
    }

    // find_stopping_strings
    method FindStoppingStrings(str: Text, lastTokenSize: nat, isFullStop: bool) returns (stopPos: Option<nat>)
      modifies this`text
      ensures var hit := StopHit(str, params.stops, lastTokenSize, isFullStop);
              && stopPos == (if hit.Some? then Some(hit.value.pos) else None)
              && text == HitText(old(text), params.stops, hit, isFullStop)
    {
      stopPos := None;
      var i := 0;
      while i < |params.stops|
        invariant 0 <= i <= |params.stops|
        invariant var hit := EarliestOf(str, params.stops, lastTokenSize, isFullStop, i);
                  && stopPos == (if hit.Some? then Some(hit.value.pos) else None)
                  && text == HitText(old(text), params.stops, hit, isFullStop)
      {
        var word := params.stops[i];
        var pos: Option<nat>;
        if isFullStop {
          var tmp := |word| + lastTokenSize;
          var fromPos := if |str| > tmp then |str| - tmp else 0;
          pos := Find(str, word, fromPos);
        } else {
          pos := FindPartialStopString(word, str);
        }
        if pos.Some? && (stopPos.None? || pos.value < stopPos.value) {
          if isFullStop {
            text := text.(stop := Word, stoppingWord := word, hasNext := false);
          }
          stopPos := pos;
        }
        i := i + 1;
      }
    }

    /** The text half of `process_token`: lines 2030 to 2077. `out` is the content of a partial response. */
    method AcceptPiece(piece: Text) returns (out: Option<Text>, shown: Text)
      modifies this`text
      ensures Accepted(text, out, shown) == Accept(old(text), piece, params.stops)
    {
      text := text.(gen := text.gen + piece, hasNext := true);
      var valid := ValidateUtf8(text.gen);
      if valid < |text.gen| {
        return None, piece;
      }
      shown := ShowText(|piece|);
      out := Some(shown);
    }

    /** Stop words are searched, and what can be shown is counted as sent: lines 2043 to 2067. */
    method ShowText(pieceSize: nat) returns (shown: Text)
      modifies this`text
      ensures (text, shown) == Showing(old(text), params.stops, pieceSize)
    {
      hide Find, PartialStop, EarliestOf;
      var pos := Min(text.nSent, |text.gen|);
      var strTest := text.gen[pos..];
      var sendText := true;
      var stopPos := FindStoppingStrings(strTest, pieceSize, true);
      if stopPos.Some? {
        text := text.(gen := text.gen[..pos + stopPos.value]);
        pos := Min(text.nSent, |text.gen|);
      } else if text.hasNext {
        var partial := FindStoppingStrings(strTest, pieceSize, false);
        sendText := partial.None?;
      }
      if sendText {
        shown := text.gen[pos..];
        text := text.(nSent := text.nSent + |shown|);
      } else {
        shown := [];
      }
    }

    method LeaveBatch()
      modifies this`iBatch
      ensures View() == old(View()).(iBatch := -1)
    {
      iBatch := -1;
    }

    /** The sampled token is counted: lines 3129 to 3141. */
    method CountToken()
      modifies this`state, this`iBatch, this`nDecoded
      ensures View() == Counted(old(View()))
    {
      state := Generating;
      iBatch := -1;
      nDecoded := nDecoded + 1;
    }

    /** The accepted tokens are counted and cached: lines 3226 to 3232. */
    method AcceptDraft(ids: seq<Sample>)
      requires ids != []
      modifies this`nPast, this`nDecoded, this`cacheTokens
      ensures View() == Advanced(old(View()), ids)
    {
      nPast := nPast + |ids|;
      nDecoded := nDecoded + |ids|;
      cacheTokens := cacheTokens + [sampled];
      cacheTokens := cacheTokens + Toks(ids)[..|ids| - 1];
    }

    /** The budget: lines 2080 to 2086. */
    method CheckBudget(cfg: Config)
      modifies this`text, this`nRemaining
      ensures View() == BudgetChecked(cfg, old(View()))
    {
      if nDecoded > 0 && text.hasNext {
        var enough := HasBudget(cfg);
        if !enough { text := Stopped(text, Limit); }
      }
    }

    /** The other limits: lines 2088 to 2170. */
    method CheckLimits(cfg: Config, smp: Sample, shown: Text)
      modifies this`text, this`truncated
      ensures View() == LimitsChecked(cfg, old(View()), smp, shown)
    {
      CheckLines(smp.late, shown);
      if nPast >= cfg.nCtx {
        truncated := true;
        text := Stopped(text, Limit);
      }
      if smp.eog { text := Stopped(text, Eos); }
      if params.nPredict < 1 && cfg.nPredict < 1 && nPromptTokens + nDecoded >= cfg.nCtxTrain {
        truncated := true;
        text := Stopped(text, Limit);
      }
    }

    /** Time and indentation, once a new line was seen: lines 2088 to 2137. */
    method CheckLines(late: bool, shown: Text)
      modifies this`text
      ensures text == LinesChecked(old(text), params.nIndent, late, shown)
    {
      if text.hasNewLine {
        if late { text := Stopped(text, Limit); }
        if params.nIndent > 0 { CheckLine(); }
      }
      if NEWLINE in shown { text := text.(hasNewLine := true); }
    }

    /** The last line is measured and perhaps cut, and the next one looked for: lines 2101 to 2132. */
    method CheckLine()
      requires params.nIndent > 0
      modifies this`text
      ensures text == LineChecked(old(text), params.nIndent)
    {
      if text.lastNl > 0 {
        var pos, nIndent := text.lastNl, 0;
        while pos < |text.gen| && Blank(text.gen[pos])
          invariant pos == text.lastNl + nIndent
          invariant nIndent + Blanks(text.gen, pos) == Blanks(text.gen, text.lastNl)
        {
          nIndent := nIndent + 1;
          pos := pos + 1;
        }
        if pos < |text.gen| && nIndent < params.nIndent {
          text := Stopped(text.(gen := text.gen[..pos]), Limit);
        }
      }
      var next := Find(text.gen, [NEWLINE], text.lastNl);
      if next.Some? { text := text.(lastNl := next.value + 1); }
    }

    /** The copy loop of the context shift: lines 2744 to 2746. */
    method MoveDown(keep: nat, discard: nat)
      modifies this`cacheTokens
      ensures |cacheTokens| == |old(cacheTokens)|
      ensures keep + discard <= |cacheTokens| ==>
                cacheTokens[..|cacheTokens| - discard] == old(cacheTokens)[..keep] + old(cacheTokens)[keep + discard..]
      ensures keep + discard > |cacheTokens| ==> cacheTokens == old(cacheTokens)
    {
      ghost var was := cacheTokens;
      var i := keep + discard;
      while i < |cacheTokens|
        invariant keep + discard <= i && |cacheTokens| == |was|
        invariant i <= |was| || i == keep + discard
        invariant forall k :: 0 <= k < keep && k < |was| ==> cacheTokens[k] == was[k]
        invariant forall k :: keep <= k < i - discard && i <= |was| ==> cacheTokens[k] == was[k + discard]
        invariant forall k :: i - discard <= k < |was| ==> cacheTokens[k] == was[k]
      {
        cacheTokens := cacheTokens[i - discard := cacheTokens[i]];
        i := i + 1;
      }
    }

    /** The cached tokens and the counters of the context shift: lines 2743 to 2755. A discard below 0 or above the
        size would resize to a wrapped-around size; the model leaves the cached tokens alone then. */
    method Shift(cfg: Config)
      modifies this`cacheTokens, this`nPast, this`truncated
      ensures View() == ShiftedSlot(cfg, old(View()))
    {
      var nKeep, nDiscard := KeptTokens(cfg, View()), Discarded(cfg, View());
      if params.cachePrompt {
        if 0 <= nKeep && 0 <= nDiscard { MoveDown(nKeep, nDiscard); }
        if 0 <= nDiscard <= |cacheTokens| { cacheTokens := cacheTokens[..|cacheTokens| - nDiscard]; }
      }
      nPast := if 0 <= nPast - nDiscard then nPast - nDiscard else 0;
      truncated := true;
    }

    /** A token goes into the batch: lines 2786 to 2790 and 3010 to 3016. */
    method Advance(tok: Token)
      modifies this`nPast, this`cacheTokens
      ensures View() == Grown(old(View()), tok)
    {
      nPast := nPast + 1;
      if params.cachePrompt { cacheTokens := cacheTokens + [tok]; }
    }

    /** The sampled token goes into the batch as entry `n`. */
    method AdvanceSampled(n: nat)
      modifies this`iBatch, this`nPast, this`cacheTokens
      ensures View() == Grown(old(View()).(iBatch := n), old(sampled))
    {
      iBatch := n;
      Advance(sampled);
    }

    // launch_slot_with_task, without the answer to a rejected grammar; `ok` is the verdict of the sampler's set-up
    method Launch(cfg: Config, task: Task, ok: bool)
      modifies this
      ensures View() == Slots.Launch(cfg, old(View()), task, ok) && tLastUsed == old(tLastUsed)
    {
      Reset();
      SetTask(task);
      SetParams(cfg, task.params);
      if ok { state := Started; }
    }

    method SetTask(task: Task)
      modifies this`idTask, this`taskType, this`promptTokens
      ensures View() == old(View()).(idTask := task.id, kind := task.kind, prompt := task.prompt)
    {
      idTask := task.id;
      taskType := task.kind;
      promptTokens := task.prompt;
    }

    /** Adapters and the limit of generated tokens: lines 1972 and 1976 to 1989. */
    method SetParams(cfg: Config, given: Params)
      modifies this`params, this`lora, this`cacheTokens
      ensures View() == WithParams(cfg, old(View()), given)
    {
      params := given;
      var same := AreLoraEqual(given.lora, lora);
      if !same {
        cacheTokens := [];
        lora := given.lora;
      }
      if cfg.nPredict > 0 && params.nPredict > cfg.nPredict { params := params.(nPredict := cfg.nPredict); }
    }

    // ---------------------------------------------------------------- prompts

    /** Lines 2823 to 2825. */
    method StartPrompt()
      modifies this`nPast, this`nPromptTokens, this`state
      ensures View() == BegunPrompt(old(View()))
    {
      nPast := 0;
      nPromptTokens := |promptTokens|;
      state := ProcessingPrompt;
    }

    /** The prompt is fitted to the window: lines 2876 to 2912. */
    method FitPrompt(cfg: Config)
      requires nPromptTokens == |promptTokens|
      modifies this`params, this`promptTokens, this`nPromptTokens, this`truncated
      ensures View() == Fitted(cfg, old(View()))
    {
      if params.nKeep < 0 { params := params.(nKeep := nPromptTokens); }
      params := params.(nKeep := Min(cfg.nCtx - 4, params.nKeep));
      if nPromptTokens >= cfg.nCtx { TruncatePrompt(cfg); }
    }

    method TruncatePrompt(cfg: Config)
      requires 0 <= params.nKeep <= cfg.nCtx - 4 && cfg.nCtx <= nPromptTokens == |promptTokens|
      modifies this`promptTokens, this`nPromptTokens, this`truncated
      ensures promptTokens == Truncated(old(promptTokens), params.nKeep, cfg.nCtx) && nPromptTokens == |promptTokens|
              && truncated
    {
      var nLeft := cfg.nCtx - params.nKeep;
      var nBlockSize := nLeft / 2;
      var erasedBlocks := (nPromptTokens - params.nKeep - nBlockSize) / nBlockSize;
      assert erasedBlocks == ErasedBlocks(nPromptTokens, params.nKeep, cfg.nCtx);
      promptTokens := promptTokens[..params.nKeep] + promptTokens[params.nKeep + erasedBlocks * nBlockSize..];
      truncated := true;
      nPromptTokens := |promptTokens|;
    }

    /** How far cache and prompt agree from two heads on: lines 2925 to 2931. */
    method MatchChunk(headC: nat, headP: nat) returns (n: nat)
      requires headC <= |cacheTokens| && headP <= |promptTokens|
      ensures n == MatchLength(cacheTokens, promptTokens, headC, headP)
      ensures headC + n <= |cacheTokens| && headP + n <= |promptTokens|
    {
      n := CountMatch(cacheTokens, promptTokens, headC, headP);
    }

    /** A chunk is copied down, first to last, so that it may overlap itself: lines 2947 to 2950. */
    method CopyChunk(headC: nat, headP: nat, n: nat)
      requires headP <= headC && headC + n <= |cacheTokens|
      modifies this`cacheTokens, this`nPast
      ensures cacheTokens == CopiedDown(old(cacheTokens), headC, headP, n) && nPast == old(nPast) + n
    {
      var i := 0;
      while i < n
        invariant 0 <= i <= n && |cacheTokens| == |old(cacheTokens)|
        invariant cacheTokens == CopiedDown(old(cacheTokens), headC, headP, i) && nPast == old(nPast) + i
      {
        cacheTokens := cacheTokens[headP + i := cacheTokens[headC + i]];
        nPast := nPast + 1;
        i := i + 1;
      }
    }

    /** Line 2967 to 2975: at least one token must be evaluated. */
    method LeaveLast()
      modifies this`nPast
      ensures nPast == LeaveOne(old(nPast), nPromptTokens)
    {
      if nPast == nPromptTokens && nPast > 0 { nPast := nPast - 1; }
    }

    /** What is not common is dropped: lines 2990 to 3001, after the cells were removed. */
    method TrimCache(removed: bool)
      modifies this`nPast, this`cacheTokens
      ensures View() == var n := if removed then old(nPast) else 0;
                        old(View()).(nPast := n, cache := Resized(old(cacheTokens), n))
    {
      if !removed { nPast := 0; }
      cacheTokens := Resized(cacheTokens, nPast);
    }

    /** The prompt is in the batch: lines 3024 to 3041. */
    method FinishPrompt(last: nat)
      modifies this`state, this`nDecoded, this`iBatch
      ensures View() == old(View()).(phase := DonePrompt, nDecoded := 0, iBatch := last)
    {
      state := DonePrompt;
      nDecoded := 0;
      iBatch := last;
    }
  }

  method CountMatch(cache: seq<Token>, prompt: seq<Token>, headC: nat, headP: nat) returns (n: nat)
    requires headC <= |cache| && headP <= |prompt|
    ensures n == MatchLength(cache, prompt, headC, headP)
    ensures headC + n <= |cache| && headP + n <= |prompt|
  {
    n := 0;
    while headC + n < |cache| && headP + n < |prompt| && cache[headC + n] == prompt[headP + n]
      invariant headC + n <= |cache| && headP + n <= |prompt|
      invariant cache[headC..headC + n] == prompt[headP..headP + n]
      decreases |cache| - headC - n
    {
      MatchGoesOn(cache, prompt, headC, headP, n);
      n := n + 1;
    }
    MatchIsLength(cache, prompt, headC, headP, n);
  }

  /** The fields that a full hit sets. */
  function HitText(t: TextState, words: seq<Text>, hit: Option<Hit>, full: bool): TextState {
    if full && hit.Some? && hit.value.word < |words|
    then t.(stop := Word, stoppingWord := words[hit.value.word], hasNext := false) else t
  }
}
