/** `server_context` with its slots as objects. Every loop of `update_slots` is a method whose result is the
    value that the functions of UpdateSlots.dfy give for the state it started in. */
module ContextObject {
  import opened Wrappers
  import opened TextStream
  import opened KvCache
  import opened PromptReuse
  import opened Slots
  import opened UpdateSlots
  import opened SlotObject
  import opened TaskQueue
  import opened ResultQueue
  import opened ContextSteps

  ghost predicate Distinct(slots: seq<ServerSlot>) {
    forall i, j :: 0 <= i < j < |slots| ==> slots[i] != slots[j]
  }

  function Views(slots: seq<ServerSlot>): (r: seq<Slot>)
    reads slots
    ensures |r| == |slots| && forall i :: 0 <= i < |r| ==> r[i] == slots[i].View()
  {
    if slots == [] then [] else Views(slots[..|slots| - 1]) + [slots[|slots| - 1].View()]
  }

  /** Only one slot changed. */
  lemma OneChanged(slots: seq<ServerSlot>, i: nat, was: seq<Slot>)
    requires i < |slots| == |was| && forall k :: 0 <= k < |slots| && k != i ==> slots[k].View() == was[k]
    ensures Views(slots) == was[i := slots[i].View()]
  {
  }

  class ServerContext {
    const cfg: Config
    const slots: seq<ServerSlot>
    const slotPromptSimilarity: real
    const queueTasks: ServerQueue
    const queueResults: ServerResponse
    var kv: seq<Kv>
    var batch: seq<Entry>
    var logits: seq<bool>
    var cleanKvCache: bool
    var clock: int

    /** Everything that was told in this call, and the two queues at its start. */
    ghost var events: seq<Event>
    ghost var start: (Queues, Box)

    // init
    constructor (cfg: Config, nParallel: nat, params: Params, slotPromptSimilarity: real)
      ensures Valid() && this.cfg == cfg && |slots| == nParallel && cleanKvCache && batch == []
      ensures queueTasks.View() == Queues(0, [], []) && queueResults.View() == Box({}, [])
      ensures forall i :: 0 <= i < nParallel ==>
                fresh(slots[i]) && kv[i] == map[]
                && slots[i].View() == Slot(-1, Completion, Idle, params, [], 0, 0, 0, -1, -1, [], [], 0, false, START)
    {
      var made: seq<ServerSlot> := [];
      while |made| < nParallel
        invariant |made| <= nParallel && Distinct(made)
        invariant forall i :: 0 <= i < |made| ==>
                    fresh(made[i]) && made[i].id == i
                    && made[i].View() == Slot(-1, Completion, Idle, params, [], 0, 0, 0, -1, -1, [], [], 0, false,
                       START)
      {
        var slot := new ServerSlot(|made|, params);
        made := made + [slot];
      }
      this.cfg := cfg;
      this.slotPromptSimilarity := slotPromptSimilarity;
      slots := made;
      queueTasks := new ServerQueue();
      queueResults := new ServerResponse();
      kv := seq(nParallel, _ => map[]);
      batch, logits, cleanKvCache, clock, events := [], [], true, 0, [];
      start := (Queues(0, [], []), Box({}, []));
    }

    ghost predicate Valid()
      reads this
    {
      && Distinct(slots) && |kv| == |slots| && |logits| == |batch|
      && forall i :: 0 <= i < |slots| ==> slots[i].id == i
    }

    /** The two queues are what the events made of them. */
    ghost predicate Traced()
      reads this, queueTasks, queueResults
    {
      (queueTasks.View(), queueResults.View()) == QueuesAfter(start, events)
    }

    /** The state as a value; `slot_batched` is a local variable of `update_slots`. */
    ghost function Now(batched: Option<nat>): Work
      reads this, slots
    {
      Work(Views(slots), kv, batch, logits, batched, events)
    }

    /** Time passes: `ggml_time_us` gives a higher value than ever before. */
    method Tick(now: int)
      requires Valid() && now > clock
      modifies this`clock
      ensures Valid() && clock == now
    {
      clock := now;
    }

    // release, with its callback
    method ReleaseSlot(i: nat) returns (wasBusy: bool)
      requires Valid() && i < |slots|
      modifies slots[i], queueTasks
      ensures Valid() && slots[i].View() == Release(old(slots[i].View())) && wasBusy == Processing(old(slots[i].View()))
      ensures queueTasks.View() == if wasBusy then Undeferred(old(queueTasks.View())) else old(queueTasks.View())
    {
      wasBusy := slots[i].Release(clock);
      if wasBusy { queueTasks.PopDeferredTask(); }
    }

    /** A release in the course of `update_slots`. */
    method ReleaseTold(i: nat)
      requires Valid() && Traced() && i < |slots|
      modifies slots[i], queueTasks, this`events
      ensures Valid() && Traced()
      ensures slots[i].View() == Release(old(slots[i].View()))
      ensures events == old(events) + if Processing(old(slots[i].View())) then [Released(i)] else []
    {
      var wasBusy := ReleaseSlot(i);
      if wasBusy {
        QueuesAfterOne(start, events, Released(i));
        events := events + [Released(i)];
      }
    }

    /** An event that leaves the two queues alone. */
    ghost method Note(e: Event)
      requires Valid() && Traced() && Quiet(e)
      modifies this`events
      ensures Valid() && Traced() && events == old(events) + [e]
    {
      QuietEvent(start, events, e);
      events := events + [e];
    }

    method Send(task: int, reply: Reply)
      requires Valid() && Traced()
      modifies queueResults, this`events
      ensures Valid() && Traced()
      ensures events == old(events) + [Sent(task, reply)]
    {
      QueuesAfterOne(start, events, Sent(task, reply));
      queueResults.Send(Result(task, reply));
      events := events + [Sent(task, reply)];
    }

    /** A slot is released and its task answered. */
    method Finish(i: nat, reply: Reply)
      requires Valid() && Traced() && i < |slots| && slots[i].state != Idle
      modifies slots[i], queueTasks, queueResults, this`events
      ensures Valid() && Traced()
      ensures slots[i].View() == Release(old(slots[i].View()))
      ensures events == old(events) + [Released(i), Sent(old(slots[i].idTask), reply)]
    {
      ReleaseTold(i);
      Send(slots[i].View().idTask, reply);
    }

    // llama_kv_cache_seq_rm and llama_kv_cache_seq_add of lines 2740 and 2741
    method ShiftCells(i: nat)
      requires Valid() && i < |slots|
      modifies this`kv
      ensures Valid() && kv == old(kv)[i := ShiftedKv(cfg, slots[i].View(), old(kv[i]))]
    {
      var slot := slots[i];
      var nKeep, nDiscard := KeptTokens(cfg, slot.View()), Discarded(cfg, slot.View());
      var cut := SeqRm(kv[i], nKeep, nKeep + nDiscard);
      kv := kv[i := SeqAdd(cut, nKeep + nDiscard, slot.nPast, -nDiscard)];
    }

    /** Lines 2724 to 2755 for one slot. */
    method ShiftSlot(i: nat)
      requires Valid() && Traced() && i < |slots|
      modifies slots[i], queueTasks, queueResults, this`kv, this`events
      ensures Valid() && Traced()
      ensures Now(None) == ShiftStep(cfg, old(Now(None)), i)
    {
      ghost var was := Views(slots);
      var slot := slots[i];
      if slot.state != Idle && slot.nPast + 1 >= cfg.nCtx {
        if !cfg.ctxShift {
          Finish(i, Error(ShiftDisabled));
        } else {
          ShiftCells(i);
          slot.Shift(cfg);
        }
      }
      OneChanged(slots, i, was);
    }

    method ApplyContextShift()
      requires Valid() && Traced()
      modifies slots, queueTasks, queueResults, this`kv, this`events
      ensures Valid() && Traced()
      ensures Now(None) == ShiftFrom(cfg, old(Now(None)), 0)
    {
      hide ShiftStep, Views;
      var i := 0;
      while i < |slots|
        invariant 0 <= i <= |slots| && Valid() && Traced()
        invariant ShiftFrom(cfg, Now(None), i) == ShiftFrom(cfg, old(Now(None)), 0)
      {
        ShiftSlot(i);
        i := i + 1;
      }
    }

    // ---------------------------------------------------------------- building the batch

    // common_batch_add
    method AddEntry(tok: Token, pos: nat, seqId: nat, logit: bool)
      requires Valid()
      modifies this`batch, this`logits
      ensures Valid() && batch == old(batch) + [Entry(tok, pos, seqId)] && logits == old(logits) + [logit]
    {
      batch := batch + [Entry(tok, pos, seqId)];
      logits := logits + [logit];
    }

    /** The sampled token of slot `i` goes into the batch: lines 2782 to 2790. */
    method EnterSampled(i: nat)
      requires Valid() && i < |slots|
      modifies slots[i], this`batch, this`logits
      ensures Valid() && logits == old(logits) + [true]
      ensures var s := old(slots[i].View());
              && batch == old(batch) + [Entry(s.sampled, s.nPast, i)]
              && Views(slots) == old(Views(slots))[i := Grown(s.(iBatch := |old(batch)|), s.sampled)]
    {
      hide Views;
      ghost var before := Views(slots);
      var slot := slots[i];
      AddEntry(slot.sampled, slot.nPast, i, true);
      slot.AdvanceSampled(|batch| - 1);
      OneChanged(slots, i, before);
    }

    /** Lines 2770 to 2794 for one slot. */
    method AddSampled(i: nat, was: Option<nat>) returns (batched: Option<nat>)
      requires Valid() && i < |slots| && Shaped(Now(was))
      modifies slots[i], this`batch, this`logits
      ensures Valid() && Shaped(Now(batched)) && Now(batched) == SampledStep(old(Now(was)), i)
    {
      ghost var w := Now(was);
      batched := was;
      if slots[i].state == Generating {
        if batched.None? {
          batched := Some(i);
        } else if !CanBatch(slots[batched.value].View(), slots[i].View()) {
          return;
        }
        SampledStepIs(w, i);
        EnterSampled(i);
      }
    }

    method AddSampledTokens() returns (batched: Option<nat>)
      requires Valid()
      modifies slots, this`batch, this`logits
      ensures Valid() && Shaped(Now(batched)) && Now(batched) == SampledFrom(old(Now(None)), 0)
    {
      hide SampledStep, Views;
      batched := None;
      var i := 0;
      while i < |slots|
        invariant 0 <= i <= |slots| && Valid() && Shaped(Now(batched))
        invariant SampledFrom(Now(batched), i) == SampledFrom(old(Now(None)), 0)
      {
        batched := AddSampled(i, batched);
        i := i + 1;
      }
    }

    // ---------------------------------------------------------------- prompts

    /** Whether and why a prompt cannot be taken. */
    method Refuse(i: nat) returns (why: Option<Reply>)
      requires i < |slots|
      ensures why == Refusal(cfg, slots[i].View())
    {
      var slot := slots[i];
      if slot.promptTokens == [] { return Some(FinalReply(slot.View())); }
      if slot.taskType == Embedding || slot.taskType == Rerank {
        if slot.nPromptTokens > cfg.nUbatch { return Some(Error(BatchTooSmall)); }
        if slot.nPromptTokens > cfg.nCtx { return Some(Error(ContextTooSmall)); }
        return None;
      }
      if !cfg.ctxShift && slot.nPromptTokens >= cfg.nCtx { return Some(Error(ContextExceeded)); }
      return None;
    }

    /** The cells of one chunk are moved: lines 2944 and 2945. */
    method MoveCells(i: nat, headC: nat, headP: nat, n: nat)
      requires Valid() && i < |slots|
      modifies this`kv
      ensures Valid() && kv == old(kv)[i := SeqAdd(SeqRm(old(kv)[i], headP, headC), headC, headC + n, headP - headC)]
    {
      kv := kv[i := SeqRm(kv[i], headP, headC)];
      kv := kv[i := SeqAdd(kv[i], headC, headC + n, headP - headC)];
    }

    /** A matching chunk is moved down: lines 2944 to 2953. */
    method MoveMatch(slot: ServerSlot, i: nat, headC: nat, n: nat)
      requires Valid() && i < |slots| && slot.nPast <= headC && headC + n <= |slot.cacheTokens|
      modifies slot`cacheTokens, slot`nPast, this`kv
      ensures Valid() && kv == old(kv)[i := kv[i]]
      ensures Reuse(slot.cacheTokens, kv[i], slot.nPast)
              == MoveChunk(old(Reuse(slot.cacheTokens, kv[i], slot.nPast)), headC, n)
    {
      var headP := slot.nPast;
      MoveCells(i, headC, headP, n);
      slot.CopyChunk(headC, headP, n);
    }

    /** One turn of the reuse loop: lines 2924 to 2957. */
    method ReuseTurn(slot: ServerSlot, i: nat, headC: nat) returns (next: nat)
      requires Valid() && i < |slots| && cfg.nCacheReuse > 0
      requires slot.nPast <= headC < |slot.cacheTokens| && slot.nPast < |slot.promptTokens|
      modifies slot`cacheTokens, slot`nPast, this`kv
      ensures Valid() && kv == old(kv)[i := kv[i]]
      ensures (Reuse(slot.cacheTokens, kv[i], slot.nPast), next)
              == ReuseNext(old(Reuse(slot.cacheTokens, kv[i], slot.nPast)), slot.promptTokens, headC, cfg.nCacheReuse)
    {
      hide SeqRm, SeqAdd, Distinct;
      var nMatch := slot.MatchChunk(headC, slot.nPast);
      if nMatch >= cfg.nCacheReuse {
        MoveMatch(slot, i, headC, nMatch);
        next := headC + nMatch;
      } else {
        next := headC + 1;
      }
    }

    /** The reuse loop: lines 2917 to 2958; `head_p` is `n_past` throughout. */
    method ReuseChunks(slot: ServerSlot, i: nat)
      requires Valid() && i < |slots| && cfg.nCacheReuse > 0
      requires slot.nPast <= |slot.cacheTokens| && slot.nPast <= |slot.promptTokens|
      modifies slot`cacheTokens, slot`nPast, this`kv
      ensures Valid() && kv == old(kv)[i := kv[i]]
      ensures Reuse(slot.cacheTokens, kv[i], slot.nPast)
              == ReuseFrom(old(Reuse(slot.cacheTokens, kv[i], slot.nPast)), slot.promptTokens, old(slot.nPast),
                cfg.nCacheReuse)
    {
      var headC := slot.nPast;
      ghost var end := ReuseFrom(Reuse(slot.cacheTokens, kv[i], slot.nPast), slot.promptTokens, headC, cfg.nCacheReuse);
      while headC < |slot.cacheTokens| && slot.nPast < |slot.promptTokens|
        invariant Valid() && kv == old(kv)[i := kv[i]]
        invariant slot.nPast <= headC <= |slot.cacheTokens| && slot.nPast <= |slot.promptTokens|
        invariant end
                  == ReuseFrom(Reuse(slot.cacheTokens, kv[i], slot.nPast), slot.promptTokens, headC, cfg.nCacheReuse)
        decreases |slot.cacheTokens| - headC
      {
        headC := ReuseTurn(slot, i, headC);
      }
    }

    /** Prompt reuse: lines 2915 to 2964. */
    method ReuseCache(i: nat)
      requires Valid() && i < |slots|
      modifies slots[i], this`kv
      ensures Valid()
      ensures var s := old(slots[i].View());
              var r := Reused(s.cache, old(kv)[i], s.prompt, cfg.nCacheReuse);
              slots[i].View() == s.(cache := r.cache, nPast := r.nPast) && kv == old(kv)[i := r.kv]
    {
      var slot := slots[i];
      slot.nPast := Lcp(slot.cacheTokens, slot.promptTokens);
      if cfg.nCacheReuse > 0 { ReuseChunks(slot, i); }
    }

    /** A prompt is looked at for the first time: lines 2819 to 2978. */
    method OpenSlot(i: nat) returns (accepted: bool)
      requires Valid() && Traced() && i < |slots|
      modifies slots[i], queueTasks, queueResults, this`kv, this`events
      ensures Valid() && Traced()
      ensures match OpenPrompt(cfg, old(slots[i].View()), old(kv[i]))
              case Refused(t, reply) =>
                !accepted && slots[i].View() == t && kv == old(kv)
                  && events == old(events) + [Released(i), Sent(t.idTask, reply)]
              case Opened(t, cells) =>
                accepted && slots[i].View() == t && kv == old(kv)[i := cells] && events == old(events)
    {
      hide Truncated;
      var slot := slots[i];
      slot.StartPrompt();
      var why := Refuse(i);
      if why.Some? {
        Finish(i, why.value);
        return false;
      }
      if slot.taskType != Embedding && slot.taskType != Rerank {
        slot.FitPrompt(cfg);
        if slot.params.cachePrompt { ReuseCache(i); }
      }
      slot.LeaveLast();
      return true;
    }

    /** Only the common part is kept: lines 2989 to 3001. */
    method TrimSlot(i: nat, removed: bool, ghost batched: Option<nat>)
      requires Valid() && i < |slots| && Shaped(Now(batched))
      modifies slots[i], this`kv
      ensures Valid() && Now(batched) == Trimmed(old(Now(batched)), i, removed)
    {
      ghost var was := Views(slots);
      var slot := slots[i];
      if removed {
        kv := kv[i := SeqRm(kv[i], slot.nPast, -1)];
      } else {
        kv := kv[i := SeqRm(kv[i], -1, -1)];
        assert kv[i] == map[];
      }
      slot.TrimCache(removed);
      OneChanged(slots, i, was);
    }

    /** A token of slot `i` goes into the batch. */
    method PushEntry(i: nat, tok: Token, logit: bool)
      requires Valid() && i < |slots|
      modifies slots[i], this`batch, this`logits
      ensures Valid() && logits == old(logits) + [logit]
      ensures batch == old(batch) + [Entry(tok, old(slots[i].nPast), i)]
      ensures Views(slots) == old(Views(slots))[i := Grown(old(slots[i].View()), tok)]
    {
      ghost var before := Views(slots);
      AddEntry(tok, slots[i].nPast, i, logit);
      slots[i].Advance(tok);
      OneChanged(slots, i, before);
    }

    /** A token of the prompt goes into the batch: lines 3005 to 3016. */
    method AddPromptToken(i: nat, ghost batched: Option<nat>)
      requires Valid() && i < |slots| && Shaped(Now(batched)) && Feeds(cfg, Now(batched), slots[i].View())
      modifies slots[i], this`batch, this`logits
      ensures Valid() && Now(batched) == OneMore(cfg, old(Now(batched)), i)
    {
      var slot := slots[i];
      var needEmbd := slot.taskType == Embedding && cfg.noPooling;
      PushEntry(i, slot.promptTokens[slot.nPast], needEmbd);
    }

    /** The token loop: lines 3004 to 3017. */
    method AddPromptTokens(i: nat, ghost batched: Option<nat>)
      requires Valid() && i < |slots| && Shaped(Now(batched))
      modifies slots[i], this`batch, this`logits
      ensures Valid() && Now(batched) == AddTokens(cfg, old(Now(batched)), i)
    {
      ghost var end := AddTokens(cfg, Now(batched), i);
      while slots[i].nPast < slots[i].nPromptTokens && slots[i].nPast < |slots[i].promptTokens| && |batch| < cfg.nBatch
        invariant Valid() && Shaped(Now(batched)) && AddTokens(cfg, Now(batched), i) == end
        decreases cfg.nBatch - |batch|
      {
        AddPromptToken(i, batched);
      }
    }

    /** Lines 3023 to 3041. */
    method FinishPrompt(i: nat, ghost batched: Option<nat>)
      requires Valid() && i < |slots| && Shaped(Now(batched))
      modifies slots[i], this`logits
      ensures Valid() && Now(batched) == PromptDone(old(Now(batched)), i)
    {
      ghost var was := Views(slots);
      var slot := slots[i];
      if slot.nPast == slot.nPromptTokens && batch != [] {
        logits := logits[|batch| - 1 := true];
        slot.FinishPrompt(|batch| - 1);
      }
      OneChanged(slots, i, was);
    }

    /** The rest of a slot's turn once its prompt is open: lines 2981 to 3041. */
    method IngestSlot(i: nat, o: Oracle, ghost batched: Option<nat>) returns (full: bool)
      requires Valid() && i < |slots| && Shaped(Now(batched))
      modifies slots[i], this`kv, this`batch, this`logits
      ensures Valid() && Turn(Now(batched), full) == IngestTurn(cfg, o, old(Now(batched)), i)
    {
      var slot := slots[i];
      if (slot.taskType == Embedding || slot.taskType == Rerank) && |batch| + slot.nPromptTokens > cfg.nBatch {
        return false;
      }
      TrimSlot(i, o.removes(i), batched);
      AddPromptTokens(i, batched);
      FinishPrompt(i, batched);
      return true;
    }

    /** A slot that was just started: its prompt is opened and taken in, or it is refused. */
    method OpenTurn(i: nat, o: Oracle, ghost batched: Option<nat>) returns (full: bool)
      requires Valid() && Traced() && i < |slots| && Shaped(Now(batched))
      modifies slots[i], queueTasks, queueResults, this`kv, this`batch, this`logits, this`events
      ensures Valid() && Traced()
      ensures Turn(Now(batched), full) == match OpenPrompt(cfg, old(slots[i].View()), old(kv[i]))
                case Refused(t, reply) =>
                  Turn(Tell(Put(old(Now(batched)), i, t), [Released(i), Sent(t.idTask, reply)]), false)
                case Opened(t, cells) => IngestTurn(cfg, o, Put(old(Now(batched)), i, t).(kv := old(kv)[i := cells]), i)
    {
      ghost var was := Now(batched);
      ghost var opening := OpenPrompt(cfg, slots[i].View(), kv[i]);
      hide OpenPrompt, IngestTurn, QueuesAfter, Traced;
      var accepted := OpenSlot(i);
      OneChanged(slots, i, was.slots);
      if !accepted { return false; }
      assert Now(batched) == Put(was, i, opening.slot).(kv := was.kv[i := opening.kv]);
      full := IngestSlot(i, o, batched);
    }

    /** Lines 2802 to 3042 for one slot. */
    method PromptSlot(i: nat, o: Oracle, was: Option<nat>) returns (batched: Option<nat>, full: bool)
      requires Valid() && Traced() && i < |slots| && Shaped(Now(was))
      modifies slots[i], queueTasks, queueResults, this`kv, this`batch, this`logits, this`events
      ensures Valid() && Traced() && Shaped(Now(batched))
      ensures Turn(Now(batched), full) == PromptTurn(cfg, o, old(Now(was)), i)
    {
      batched := was;
      if slots[i].state != Idle {
        if batched.None? {
          batched := Some(i);
        } else if !CanBatch(slots[batched.value].View(), slots[i].View()) {
          return batched, false;
        }
      }
      if slots[i].state == ProcessingPrompt {
        full := IngestSlot(i, o, batched);
      } else if slots[i].state == Started {
        full := OpenTurn(i, o, batched);
      } else {
        full := true;
      }
    }

    /** The loop over slots with a prompt: lines 2799 to 3048. */
    method AddPrompts(o: Oracle, was: Option<nat>) returns (batched: Option<nat>)
      requires Valid() && Traced() && Shaped(Now(was))
      modifies slots, queueTasks, queueResults, this`kv, this`batch, this`logits, this`events
      ensures Valid() && Traced() && Shaped(Now(batched))
      ensures Now(batched) == Prompts(cfg, o, old(Now(was)))
    {
      hide PromptTurn, Views;
      batched := was;
      if cfg.contBatching || batch == [] {
        ghost var end := PromptsFrom(cfg, o, Now(was), 0);
        var i := 0;
        while i < |slots|
          invariant 0 <= i <= |slots| && Valid() && Traced() && Shaped(Now(batched))
          invariant PromptsFrom(cfg, o, Now(batched), i) == end
        {
          var full: bool;
          batched, full := PromptSlot(i, o, batched);
          if full && |batch| >= cfg.nBatch { return; }
          i := i + 1;
        }
      }
    }

    // ---------------------------------------------------------------- tokens

    // process_token
    method ProcessSampled(i: nat, smp: Sample) returns (more: bool)
      requires Valid() && Traced() && i < |slots|
      modifies slots[i], queueResults, this`events
      ensures Valid() && Traced()
      ensures var p := ProcessToken(cfg, old(slots[i].View()), smp);
              && slots[i].View() == p.slot && more == p.slot.text.hasNext
              && events == old(events) + PartialEvents(p.slot, p.out)
    {
      hide Accept, LimitsChecked, BudgetChecked;
      var slot := slots[i];
      slot.sampled := smp.tok;
      var out, shown := slot.AcceptPiece(smp.piece);
      if slot.params.stream && out.Some? { Send(slot.idTask, Partial(out.value)); }
      slot.CheckBudget(cfg);
      slot.CheckLimits(cfg, smp, shown);
      more := slot.text.hasNext;
    }

    /** A token is processed, and the slot finished if it was the last. */
    method ConcludeToken(i: nat, smp: Sample, ghost batched: Option<nat>) returns (more: bool)
      requires Valid() && Traced() && i < |slots| && Shaped(Now(batched)) && slots[i].state != Idle
      modifies slots[i], queueTasks, queueResults, this`events
      ensures Valid() && Traced()
      ensures var p := ProcessToken(cfg, old(slots[i].View()), smp);
              more == p.slot.text.hasNext && Now(batched) == Concluded(old(Now(batched)), i, p)
    {
      ghost var was := Views(slots);
      ghost var s := slots[i].View();
      more := ProcessSampled(i, smp);
      if !more { Finish(i, FinalReply(slots[i].View())); }
      OneChanged(slots, i, was);
    }

    /** The sampler is asked: lines 3127 to 3133. */
    method Sample(i: nat, index: int)
      requires Valid() && Traced() && i < |slots|
      modifies slots[i], this`events
      ensures Valid() && Traced() && events == old(events) + [Sampled(i, index)]
              && slots[i].View() == Counted(old(slots[i].View()))
    {
      Note(Sampled(i, index));
      slots[i].CountToken();
    }

    /** A sampled token of a ready slot: lines 3127 to 3164. */
    method SampleSlot(i: nat, smp: Sample, index: int, ghost batched: Option<nat>)
      requires Valid() && Traced() && i < |slots| && Shaped(Now(batched))
      modifies slots[i], queueTasks, queueResults, this`events
      ensures Valid() && Traced()
      ensures Now(batched) == DrawToken(cfg, old(Now(batched)), i, index, smp)
    {
      ghost var was := Now(batched);
      Sample(i, index);
      OneChanged(slots, i, was.slots);
      CountedFirst(cfg, was, i, index, smp);
      var more := ConcludeToken(i, smp, batched);
    }

    /** An embedding or a score is sent, and the slot released: lines 3113 to 3125. */
    method FinishEarly(i: nat, reply: Reply)
      requires Valid() && Traced() && i < |slots| && slots[i].state != Idle
      modifies slots[i], queueTasks, queueResults, this`events
      ensures Valid() && Traced()
      ensures slots[i].View() == Release(old(slots[i].View())).(iBatch := -1)
      ensures events == old(events) + [Read(i), Sent(old(slots[i].View()).idTask, reply), Released(i)]
    {
      Note(Read(i));
      Send(slots[i].View().idTask, reply);
      ReleaseTold(i);
      slots[i].LeaveBatch();
    }

    method SendEarly(i: nat, reply: Reply, ghost batched: Option<nat>)
      requires Valid() && Traced() && i < |slots| && Shaped(Now(batched)) && slots[i].state != Idle
      modifies slots[i], queueTasks, queueResults, this`events
      ensures Valid() && Traced()
      ensures var s := old(slots[i].View());
              Now(batched) == Tell(Put(old(Now(batched)), i, Release(s).(iBatch := -1)),
                [Read(i), Sent(s.idTask, reply), Released(i)])
    {
      ghost var was := Views(slots);
      FinishEarly(i, reply);
      OneChanged(slots, i, was);
    }

    /** The embeddings or the score of a slot whose entry lies in the view: lines 3113 to 3125. */
    method SendReady(i: nat, o: Oracle, call: nat, start: nat, count: nat, ghost batched: Option<nat>)
      requires Valid() && Traced() && i < |slots| && Shaped(Now(batched)) && InView(slots[i].View(), start, count)
      requires slots[i].state == DonePrompt && NonCausal(slots[i].View())
      modifies slots[i], queueTasks, queueResults, this`events
      ensures Valid() && Traced()
      ensures Now(batched) == HandleStep(cfg, o, call, start, count, old(Now(batched)), i)
    {
      hide HandleStep, Views, QueuesAfter, Traced;
      EarlyStepIs(cfg, o, call, start, count, Now(batched), i);
      SendEarly(i, if slots[i].taskType == Embedding then Embeddings else Score, batched);
    }

    /** A token of such a slot: lines 3127 to 3164. */
    method DrawReady(i: nat, o: Oracle, call: nat, start: nat, count: nat, ghost batched: Option<nat>)
      requires Valid() && Traced() && i < |slots| && Shaped(Now(batched)) && InView(slots[i].View(), start, count)
      requires slots[i].state == Generating || (slots[i].state == DonePrompt && !NonCausal(slots[i].View()))
      modifies slots[i], queueTasks, queueResults, this`events
      ensures Valid() && Traced()
      ensures Now(batched) == HandleStep(cfg, o, call, start, count, old(Now(batched)), i)
    {
      hide HandleStep, DrawToken, Views, QueuesAfter, Traced;
      DrawnStep(cfg, o, call, start, count, Now(batched), i);
      SampleSlot(i, o.samples(call, i), slots[i].iBatch - start, batched);
    }

    /** A slot whose entry lies in the view: lines 3112 to 3164. */
    method HandleReady(i: nat, o: Oracle, call: nat, start: nat, count: nat, ghost batched: Option<nat>)
      requires Valid() && Traced() && i < |slots| && Shaped(Now(batched)) && InView(slots[i].View(), start, count)
      modifies slots[i], queueTasks, queueResults, this`events
      ensures Valid() && Traced()
      ensures Now(batched) == HandleStep(cfg, o, call, start, count, old(Now(batched)), i)
    {
      var slot := slots[i];
      hide HandleStep, Views, QueuesAfter, Traced;
      if slot.state == DonePrompt && (slot.taskType == Embedding || slot.taskType == Rerank) {
        SendReady(i, o, call, start, count, batched);
      } else if slot.state == DonePrompt || slot.state == Generating {
        DrawReady(i, o, call, start, count, batched);
      } else {
        QuietStep(cfg, o, call, start, count, Now(batched), i);
      }
    }

    /** Lines 3107 to 3165 for one slot and the view `[start, start + count)`. */
    method HandleSlot(i: nat, o: Oracle, call: nat, start: nat, count: nat, ghost batched: Option<nat>)
      requires Valid() && Traced() && i < |slots| && Shaped(Now(batched))
      modifies slots[i], queueTasks, queueResults, this`events
      ensures Valid() && Traced()
      ensures Now(batched) == HandleStep(cfg, o, call, start, count, old(Now(batched)), i)
    {
      if slots[i].iBatch < start || slots[i].iBatch >= start + count { return; }
      HandleReady(i, o, call, start, count, batched);
    }

    method HandleView(o: Oracle, call: nat, start: nat, count: nat, ghost batched: Option<nat>)
      requires Valid() && Traced() && Shaped(Now(batched))
      modifies slots, queueTasks, queueResults, this`events
      ensures Valid() && Traced()
      ensures Now(batched) == HandleFrom(cfg, o, call, start, count, old(Now(batched)), 0)
    {
      hide HandleStep, Views;
      ghost var end := HandleFrom(cfg, o, call, start, count, Now(batched), 0);
      var i := 0;
      while i < |slots|
        invariant 0 <= i <= |slots| && Valid() && Traced() && Shaped(Now(batched))
        invariant HandleFrom(cfg, o, call, start, count, Now(batched), i) == end
      {
        HandleSlot(i, o, call, start, count, batched);
        i := i + 1;
      }
    }

    // ---------------------------------------------------------------- speculation

    /** The accepted tokens are processed until one ends the task: lines 3236 to 3254. */
    method EmitAccepted(i: nat, ids: seq<Sample>, ghost batched: Option<nat>)
      requires Valid() && Traced() && i < |slots| && Shaped(Now(batched)) && slots[i].state != Idle
               && slots[i].nDecoded >= 1
      modifies slots[i], queueTasks, queueResults, this`events
      ensures Valid() && Traced()
      ensures Now(batched) == EmitFrom(cfg, old(Now(batched)), i, ids, 0)
    {
      ghost var end := EmitFrom(cfg, Now(batched), i, ids, 0);
      var j := 0;
      while j < |ids|
        invariant 0 <= j <= |ids| && Valid() && Traced() && Shaped(Now(batched))
        invariant slots[i].state != Idle && slots[i].nDecoded >= 1
        invariant EmitFrom(cfg, Now(batched), i, ids, j) == end
      {
        ProcessTokenStops(cfg, slots[i].View(), ids[j]);
        var more := ConcludeToken(i, ids[j], batched);
        if !more { return; }
        j := j + 1;
      }
    }

    // set_adapter_lora, applied when the batch was built
    function Adapters(batched: Option<nat>): Effect
      requires batched.Some? ==> batched.value < |slots|
      reads slots
    {
      if batched.Some? then Effective(slots[batched.value].lora) else []
    }

    /** A draft is decoded and partly accepted: lines 3200 to 3234. */
    method DecodeDraft(i: nat, draft: seq<Token>, ids: seq<Sample>, effect: Effect, ok: bool)
      requires Valid() && i < |slots| && ids != []
      modifies slots[i], this`kv
      ensures Valid() && slots[i].View() == Advanced(old(slots[i].View()), ids)
      ensures kv == old(kv)[i := AdvancedKv(old(slots[i].View()), old(kv)[i], draft, ids, effect, ok)]
    {
      var slot := slots[i];
      if ok { kv := kv[i := PlacedCells(kv[i], slot.nPast, [slot.sampled] + draft, effect)]; }
      slot.AcceptDraft(ids);
      kv := kv[i := SeqRm(kv[i], slot.nPast, -1)];
    }

    method SpeculateDraft(i: nat, draft: seq<Token>, ids: seq<Sample>, ok: bool, batched: Option<nat>)
      requires Valid() && Traced() && i < |slots| && Shaped(Now(batched)) && ids != [] && slots[i].state != Idle
      modifies slots[i], queueTasks, queueResults, this`kv, this`events
      ensures Valid() && Traced()
      ensures var w := old(Now(batched));
              Now(batched) == EmitFrom(cfg, Put(w, i, Advanced(w.slots[i], ids))
                                .(kv := w.kv[i := AdvancedKv(w.slots[i], w.kv[i], draft, ids, InForce(w), ok)]),
                            i, ids, 0)
    {
      hide EmitFrom, Views;
      ghost var was := Views(slots);
      DecodeDraft(i, draft, ids, Adapters(batched), ok);
      OneChanged(slots, i, was);
      EmitAccepted(i, ids, batched);
    }

    /** Lines 3168 to 3258 for one slot. */
    method SpeculateSlot(i: nat, o: Oracle, call: nat, batched: Option<nat>)
      requires Valid() && Traced() && i < |slots| && Shaped(Now(batched))
      modifies slots[i], queueTasks, queueResults, this`kv, this`events
      ensures Valid() && Traced()
      ensures Now(batched) == SpeculateStep(cfg, o, call, old(Now(batched)), i)
    {
      hide EmitFrom, Draft, AcceptedIds, AdvancedKv, Advanced;
      var slot := slots[i];
      if slot.state != Generating || !CanSpeculate(cfg, slot.View()) { return; }
      var nDraftMax := Min(slot.params.specMax, cfg.nCtx - slot.nPast - 2);
      if slot.nRemaining > 0 { nDraftMax := Min(nDraftMax, slot.nRemaining - 1); }
      if nDraftMax < slot.params.specMin { return; }
      var draft := Draft(cfg, o, call, slot.View(), i);
      if slot.params.specMin > |draft| { return; }
      SpeculateDraft(i, draft, AcceptedIds(o, call, i, draft), o.verifies(call, i), batched);
    }

    method SpeculateSlots(o: Oracle, call: nat, batched: Option<nat>)
      requires Valid() && Traced() && Shaped(Now(batched))
      modifies slots, queueTasks, queueResults, this`kv, this`events
      ensures Valid() && Traced()
      ensures Now(batched) == SpeculateFrom(cfg, o, call, old(Now(batched)), 0)
    {
      hide SpeculateStep, Views;
      ghost var end := SpeculateFrom(cfg, o, call, Now(batched), 0);
      var i := 0;
      while i < |slots|
        invariant 0 <= i <= |slots| && Valid() && Traced() && Shaped(Now(batched))
        invariant SpeculateFrom(cfg, o, call, Now(batched), i) == end
      {
        SpeculateSlot(i, o, call, batched);
        i := i + 1;
      }
    }

    // ---------------------------------------------------------------- the decode loop

    method ReleaseAndFail(i: nat)
      requires Valid() && Traced() && i < |slots|
      modifies slots[i], queueTasks, queueResults, this`events
      ensures Valid() && Traced() && slots[i].View() == Release(old(slots[i].View()))
      ensures var s := old(slots[i].View());
              events == old(events) + (if Processing(s) then [Released(i)] else []) + [Sent(s.idTask, Error(KvFull))]
    {
      ReleaseTold(i);
      Send(slots[i].View().idTask, Error(KvFull));
    }

    /** Lines 3083 to 3086 for one slot. */
    method GiveUpSlot(i: nat, ghost batched: Option<nat>)
      requires Valid() && Traced() && i < |slots| && Shaped(Now(batched))
      modifies slots[i], queueTasks, queueResults, this`events
      ensures Valid() && Traced()
      ensures Now(batched) == GiveUpOne(old(Now(batched)), i)
    {
      ghost var was := Now(batched);
      ReleaseAndFail(i);
      OneChanged(slots, i, was.slots);
      assert events == was.events + ((if Processing(was.slots[i]) then [Released(i)] else [])
                                     + [Sent(was.slots[i].idTask, Error(KvFull))]);
    }

    /** Lines 3083 to 3088. */
    method GiveUp(ghost batched: Option<nat>)
      requires Valid() && Traced() && Shaped(Now(batched))
      modifies slots, queueTasks, queueResults, this`events
      ensures Valid() && Traced()
      ensures Now(batched) == GiveUpFrom(old(Now(batched)), 0)
    {
      ghost var end := GiveUpFrom(Now(batched), 0);
      var i := 0;
      while i < |slots|
        invariant 0 <= i <= |slots| && Valid() && Traced() && Shaped(Now(batched))
        invariant GiveUpFrom(Now(batched), i) == end
      {
        GiveUpSlot(i, batched);
        i := i + 1;
      }
    }

    // llama_decode of the entries [from, to)
    method Decode(from: nat, to: nat, batched: Option<nat>)
      requires Valid() && Traced() && Shaped(Now(batched)) && from <= to <= |batch|
      modifies this`kv, this`events
      ensures Valid() && Traced()
      ensures Now(batched) == ViewDecoded(old(Now(batched)), from, to - from)
    {
      kv := DecodedCells(kv, batch, from, to, Adapters(batched));
      Note(Decoded(from, to - from));
    }

    /** A view was decoded: lines 3106 to 3255. */
    method FinishView(o: Oracle, call: nat, start: nat, count: nat, batched: Option<nat>)
      requires Valid() && Traced() && Shaped(Now(batched)) && start + count <= |batch|
      modifies slots, queueTasks, queueResults, this`kv, this`events
      ensures Valid() && Traced()
      ensures Now(batched) == ViewDone(cfg, o, call, start, count, old(Now(batched)))
    {
      ghost var d := ViewDecoded(Now(batched), start, count);
      ViewDoneIs(cfg, o, call, start, count, Now(batched));
      Decode(start, start + count, batched);
      assert Now(batched) == d;
      HandleView(o, call, start, count, batched);
      if cfg.hasDraft { SpeculateSlots(o, call, batched); }
    }

    /** A call failed: the loop gives up, or the view is halved. Lines 3075 to 3104. */
    method RetryView(o: Oracle, call: nat, at: nat, size: nat, batched: Option<nat>)
        returns (more: bool, i: int, nBatch: nat)
      requires Valid() && Traced() && Shaped(Now(batched)) && at < |batch| && size >= 1 && o.decodes(call) != 0
      modifies slots, queueTasks, queueResults, this`events
      ensures Valid() && Traced() && Shaped(Now(batched))
      ensures match DecodeTurn(cfg, o, Loop(old(Now(batched)), at, size, call))
              case Stop(r) => !more && Now(batched) == r.work && r.fatal
              case Again(m) => more && i + nBatch == at && m == Loop(Now(batched), at, nBatch, call + 1)
    {
      i, nBatch := at, size;
      if nBatch == 1 || o.decodes(call) < 0 {
        GiveUp(batched);
        return false, i, nBatch;
      }
      nBatch := nBatch / 2;
      i := i - nBatch;
      more := true;
    }

    /** One turn of the loop: a view is decoded, or tried again at half the size, or the loop gives up. Returned are
        the loop's `i`, which may overshoot the end, and the view size. */
    method DecodeView(o: Oracle, call: nat, at: nat, size: nat, batched: Option<nat>)
        returns (more: bool, i: int, nBatch: nat)
      requires Valid() && Traced() && Shaped(Now(batched)) && at < |batch| && size >= 1
      modifies slots, queueTasks, queueResults, this`kv, this`events
      ensures Valid() && Traced() && Shaped(Now(batched))
      ensures match DecodeTurn(cfg, o, Loop(old(Now(batched)), at, size, call))
              case Stop(r) => !more && Now(batched) == r.work && r.fatal
              case Again(m) => more && 0 <= i && m == Loop(Now(batched), Min(i, |batch|), nBatch, call + 1)
    {
      if o.decodes(call) != 0 {
        more, i, nBatch := RetryView(o, call, at, size, batched);
      } else {
        more, i, nBatch := true, at, size;
        FinishView(o, call, i, Min(nBatch, |batch| - i), batched);
      }
      i := i + nBatch;
    }

    /** The decode-retry loop: lines 3066 to 3256. */
    method DecodeBatch(o: Oracle, batched: Option<nat>) returns (fatal: bool)
      requires Valid() && Traced() && Shaped(Now(batched))
      modifies slots, queueTasks, queueResults, this`kv, this`events
      ensures Valid() && Traced()
      ensures var r := DecodeFrom(cfg, o, Loop(old(Now(batched)), 0, cfg.nBatch, 0));
              Now(batched) == r.work && fatal == r.fatal
    {
      ghost var end := DecodeFrom(cfg, o, Loop(Now(batched), 0, cfg.nBatch, 0));
      var nBatch: nat, i: int, call: nat := cfg.nBatch, 0, 0;
      while i < |batch|
        invariant Valid() && Traced() && Shaped(Now(batched)) && nBatch >= 1 && 0 <= i
        invariant DecodeFrom(cfg, o, Loop(Now(batched), Min(i, |batch|), nBatch, call)) == end
        decreases |batch| - i, nBatch
      {
        var more: bool;
        more, i, nBatch := DecodeView(o, call, i, nBatch, batched);
        if !more { return true; }
        call := call + 1;
      }
      fatal := false;
    }

    // ---------------------------------------------------------------- the whole call

    ghost function ServerView(): Server
      reads this, slots
    {
      Server(Views(slots), kv, cleanKvCache)
    }

    method AreAllIdle() returns (allIdle: bool)
      ensures allIdle == AllIdle(Views(slots))
    {
      allIdle := true;
      var i := 0;
      while i < |slots|
        invariant 0 <= i <= |slots| && allIdle
        invariant forall k :: 0 <= k < i ==> !Processing(Views(slots)[k])
      {
        if slots[i].state != Idle {
          assert Processing(Views(slots)[i]);
          return false;
        }
        i := i + 1;
      }
    }

    // kv_cache_clear
    method KvCacheClear()
      requires Valid()
      modifies this`kv, this`cleanKvCache
      ensures Valid() && kv == Emptied(old(kv)) && !cleanKvCache
    {
      kv := Emptied(kv);
      cleanKvCache := false;
    }

    /** Context shifts, and then an empty batch: lines 2721 to 2759. */
    method ShiftAndClear()
      requires Valid() && Traced()
      modifies slots, queueTasks, queueResults, this`kv, this`batch, this`logits, this`events
      ensures Valid() && Traced()
      ensures Now(None) == ShiftFrom(cfg, old(Now(None)).(batch := [], logits := []), 0)
    {
      hide ShiftFrom, Views;
      ShiftIgnoresBatch(cfg, Now(None), 0, [], []);
      ApplyContextShift();
      batch, logits := [], [];
    }

    /** The batch is built: lines 2721 to 3048. */
    method BuildBatch(o: Oracle) returns (batched: Option<nat>)
      requires Valid() && Traced()
      modifies slots, queueTasks, queueResults, this`kv, this`batch, this`logits, this`events
      ensures Valid() && Traced() && Shaped(Now(batched))
      ensures Now(batched) == BuiltFrom(cfg, o, old(Now(None)).(batch := [], logits := []))
    {
      ShiftAndClear();
      ShiftLeavesNoBatch(cfg, old(Now(None)).(batch := [], logits := []), 0);
      batched := AddSampledTokens();
      batched := AddPrompts(o, batched);
    }

    /** The wake-up is posted, and the trace begins: lines 2712 to 2719. */
    method PostNextResponse()
      requires Valid() && queueTasks.id >= 0
      modifies queueTasks, this`events, this`start
      ensures Valid() && Traced() && events == []
      ensures start == (WakePosted(old(queueTasks.View())), old(queueResults.View()))
    {
      var id := queueTasks.GetNewId();
      var posted := queueTasks.Post(NextResponse(id), false);
      events := [];
      start := (queueTasks.View(), queueResults.View());
    }

    /** The batch is built and decoded: lines 2721 to 3260. */
    method BuildAndDecode(o: Oracle)
      requires Valid() && Traced() && events == []
      modifies slots, queueTasks, queueResults, this`kv, this`batch, this`logits, this`events
      ensures Valid() && Traced()
      ensures var r := DecodeFrom(cfg, o, Loop(BuiltFrom(cfg, o, Begun(old(ServerView()))), 0, cfg.nBatch, 0)).work;
              Views(slots) == r.slots && kv == r.kv && events == r.events
    {
      var batched := BuildBatch(o);
      var fatal := DecodeBatch(o, batched);
    }

    /** Every slot is idle: lines 2702 to 2709. */
    method StayIdle()
      requires Valid()
      modifies this`kv, this`cleanKvCache, this`events
      ensures Valid() && events == [] && !cleanKvCache
      ensures kv == if old(cleanKvCache) then Emptied(old(kv)) else old(kv)
    {
      events := [];
      if cleanKvCache { KvCacheClear(); }
    }

    /** Some slot is busy: lines 2711 to 3260. */
    method UpdateBusy(o: Oracle)
      requires Valid() && queueTasks.id >= 0
      modifies slots, queueTasks, queueResults, this`kv, this`batch, this`logits, this`events, this`start
      ensures Valid() && Traced() && start == (WakePosted(old(queueTasks.View())), old(queueResults.View()))
      ensures var r := DecodeFrom(cfg, o, Loop(BuiltFrom(cfg, o, Begun(old(ServerView()))), 0, cfg.nBatch, 0)).work;
              Views(slots) == r.slots && kv == r.kv && events == r.events
    {
      hide DecodeFrom, BuiltFrom, Views, QueuesAfter, Traced;
      PostNextResponse();
      BuildAndDecode(o);
    }

    // update_slots
    method UpdateSlots(o: Oracle)
      requires Valid() && queueTasks.id >= 0
      modifies slots, queueTasks, queueResults, this
      ensures Valid()
      ensures var r := Update(cfg, old(ServerView()), o); ServerView() == r.server && events == r.events
      ensures (queueTasks.View(), queueResults.View())
              == QueuesAfter(if AllIdle(old(Views(slots))) then (old(queueTasks.View()), old(queueResults.View()))
                       else (WakePosted(old(queueTasks.View())), old(queueResults.View())), events)
    {
      hide DecodeFrom, BuiltFrom, Views;
      var allIdle := AreAllIdle();
      if allIdle {
        StayIdle();
      } else {
        UpdateBusy(o);
      }
    }

    // ---------------------------------------------------------------- requests

    /** Slot `i` is idle and similar enough to the prompt. */
    predicate Similar(i: nat, prompt: seq<Token>, lcs: (seq<Token>, seq<Token>) -> nat)
      requires i < |slots|
      reads slots
    {
      && slots[i].state == Idle && slots[i].cacheTokens != []
      && lcs(slots[i].cacheTokens, prompt) > 0
      && lcs(slots[i].cacheTokens, prompt) as real / |slots[i].cacheTokens| as real > slotPromptSimilarity
    }

    /** The longest common subsequence among the similar slots, the first of these. */
    ghost predicate MostSimilar(i: nat, prompt: seq<Token>, lcs: (seq<Token>, seq<Token>) -> nat)
      requires i < |slots|
      reads slots
    {
      && Similar(i, prompt, lcs)
      && forall j :: 0 <= j < |slots| && Similar(j, prompt, lcs) ==>
           var best, other := lcs(slots[i].cacheTokens, prompt), lcs(slots[j].cacheTokens, prompt);
           other <= best && (j < i ==> other < best)
    }

    ghost predicate AnySimilar(prompt: seq<Token>, lcs: (seq<Token>, seq<Token>) -> nat)
      reads slots
    {
      exists j :: 0 <= j < |slots| && Similar(j, prompt, lcs)
    }

    /** The first of the idle slots that were released before all others, and before now. */
    ghost predicate LeastRecentlyUsed(i: nat)
      requires i < |slots|
      reads this, slots
    {
      && slots[i].state == Idle && slots[i].tLastUsed < clock
      && forall j :: 0 <= j < |slots| && slots[j].state == Idle ==>
           slots[i].tLastUsed <= slots[j].tLastUsed && (j < i ==> slots[i].tLastUsed < slots[j].tLastUsed)
    }

    method FindSimilar(prompt: seq<Token>, lcs: (seq<Token>, seq<Token>) -> nat) returns (ret: Option<nat>)
      ensures ret.Some? ==> ret.value < |slots| && MostSimilar(ret.value, prompt, lcs)
      ensures ret.None? <==> !AnySimilar(prompt, lcs)
    {
      ret := None;
      var lcsLen, i := 0, 0;
      while i < |slots|
        invariant 0 <= i <= |slots|
        invariant ret.Some? ==> ret.value < i && Similar(ret.value, prompt, lcs)
        invariant ret.Some? ==> lcsLen == lcs(slots[ret.value].cacheTokens, prompt)
        invariant ret.None? ==> lcsLen == 0 && forall j :: 0 <= j < i ==> !Similar(j, prompt, lcs)
        invariant forall j :: 0 <= j < i && Similar(j, prompt, lcs) ==>
                    && lcs(slots[j].cacheTokens, prompt) <= lcsLen
                    && (ret.Some? && j < ret.value ==> lcs(slots[j].cacheTokens, prompt) < lcsLen)
      {
        var slot := slots[i];
        if slot.state == Idle && slot.cacheTokens != [] {
          var curLcsLen := lcs(slot.cacheTokens, prompt);
          var curSimilarity := curLcsLen as real / |slot.cacheTokens| as real;
          if curLcsLen > lcsLen && curSimilarity > slotPromptSimilarity {
            lcsLen := curLcsLen;
            ret := Some(i);
          }
        }
        i := i + 1;
      }
    }

    method FindLeastRecentlyUsed() returns (ret: Option<nat>)
      ensures ret.Some? ==> ret.value < |slots| && LeastRecentlyUsed(ret.value)
      ensures ret.None? <==> forall j :: 0 <= j < |slots| && slots[j].state == Idle ==> slots[j].tLastUsed >= clock
    {
      ret := None;
      var tLast, i := clock, 0;
      while i < |slots|
        invariant 0 <= i <= |slots|
        invariant ret.Some? ==> ret.value < i && slots[ret.value].state == Idle
        invariant ret.Some? ==> tLast == slots[ret.value].tLastUsed < clock
        invariant ret.None? ==> tLast == clock
        invariant forall j :: 0 <= j < i && slots[j].state == Idle ==>
                    tLast <= slots[j].tLastUsed && (ret.Some? && j < ret.value ==> tLast < slots[j].tLastUsed)
      {
        var slot := slots[i];
        if slot.state == Idle && slot.tLastUsed < tLast {
          tLast := slot.tLastUsed;
          ret := Some(i);
        }
        i := i + 1;
      }
    }

    /** `get_available_slot`: an idle slot with the best claim. It fails exactly if no idle slot was released before
        now and none is similar, so with a clock above all release times exactly if no slot is idle. */
    method GetAvailableSlot(prompt: seq<Token>, lcs: (seq<Token>, seq<Token>) -> nat) returns (ret: Option<nat>)
      ensures ret.Some? ==> ret.value < |slots|
                            && if slotPromptSimilarity != 0.0 && AnySimilar(prompt, lcs)
                               then MostSimilar(ret.value, prompt, lcs)
                               else LeastRecentlyUsed(ret.value)
      ensures ret.None? <==>
                && (forall j :: 0 <= j < |slots| && slots[j].state == Idle ==> slots[j].tLastUsed >= clock)
                && !(slotPromptSimilarity != 0.0 && AnySimilar(prompt, lcs))
    {
      ret := None;
      if slotPromptSimilarity != 0.0 { ret := FindSimilar(prompt, lcs); }
      if ret.None? { ret := FindLeastRecentlyUsed(); }
    }

    // launch_slot_with_task
    method LaunchSlotWithTask(i: nat, task: Task, ok: bool) returns (launched: bool)
      requires Valid() && i < |slots|
      modifies slots[i], queueResults
      ensures Valid() && launched == ok && slots[i].View() == Launch(cfg, old(slots[i].View()), task, ok)
      ensures queueResults.View()
              == if ok then old(queueResults.View())
                 else SentTo(old(queueResults.View()), Result(task.id, Error(BadGrammar)))
    {
      slots[i].Launch(cfg, task, ok);
      if !ok { queueResults.Send(Result(task.id, Error(BadGrammar))); }
      launched := ok;
    }

    /** The slot a task is for: the one it is pinned to, or an available one. */
    method SlotFor(task: Task, pin: int, lcs: (seq<Token>, seq<Token>) -> nat) returns (ret: Option<nat>)
      ensures ret.Some? ==> ret.value < |slots| && (pin != -1 ==> ret.value == pin)
      ensures ret.Some? && pin == -1 ==> slots[ret.value].state == Idle
      ensures ret.None? ==> if pin != -1 then !(0 <= pin < |slots|)
                            else forall j :: 0 <= j < |slots| && slots[j].state == Idle ==> slots[j].tLastUsed >= clock
    {
      if pin != -1 {
        ret := if 0 <= pin < |slots| then Some(pin) else None;
      } else {
        ret := GetAvailableSlot(task.prompt, lcs);
      }
    }

    /** An inference task: it is launched on an idle slot, or deferred. */
    method ProcessRun(task: Task, pin: int, lcs: (seq<Token>, seq<Token>) -> nat, ok: bool) returns (on: Option<nat>)
      requires Valid()
      modifies slots, queueTasks, queueResults
      ensures Valid()
      ensures on.Some? ==> on.value < |slots| && (pin != -1 ==> on.value == pin) && old(slots[on.value].state) == Idle
      ensures on.None? ==> if pin != -1 then 0 <= pin < |slots| ==> slots[pin].state != Idle
                           else forall j :: 0 <= j < |slots| && slots[j].state == Idle ==> slots[j].tLastUsed >= clock
      ensures (Views(slots), queueTasks.View(), queueResults.View())
              == RunHandled(cfg, old(Views(slots)), old(queueTasks.View()), old(queueResults.View()), task, pin, on, ok)
    {
      hide Views;
      ghost var was := Views(slots);
      var slot := SlotFor(task, pin, lcs);
      if slot.None? || slots[slot.value].state != Idle {
        queueTasks.Defer(Request.Run(task, pin));
        return None;
      }
      var launched := LaunchSlotWithTask(slot.value, task, ok);
      OneChanged(slots, slot.value, was);
      return slot;
    }

    /** SERVER_TASK_TYPE_SLOT_ERASE for an idle slot; a busy one defers the request. */
    method EraseSlot(i: nat) returns (nErased: Option<nat>)
      requires Valid() && i < |slots|
      modifies slots[i], this`kv
      ensures Valid()
      ensures var s := old(slots[i].View());
              if Processing(s) then nErased.None? && slots[i].View() == s && kv == old(kv)
              else nErased == Some(|s.cache|) && slots[i].View() == s.(cache := []) && kv == old(kv)[i := map[]]
    {
      var slot := slots[i];
      if slot.state != Idle { return None; }
      nErased := Some(|slot.cacheTokens|);
      kv := kv[i := SeqRm(kv[i], -1, -1)];
      assert kv[i] == map[];
      slot.cacheTokens := [];
    }

    /** A cancel: the first slot that runs or last ran the task is released. */
    method ProcessCancel(target: int)
      requires Valid()
      modifies slots, queueTasks
      ensures Valid()
      ensures (Views(slots), queueTasks.View()) == CancelHandled(old(Views(slots)), old(queueTasks.View()), target)
    {
      ghost var was := Views(slots);
      var i := 0;
      while i < |slots|
        invariant 0 <= i <= |slots| && Valid() && Views(slots) == was && queueTasks.View() == old(queueTasks.View())
        invariant SlotOf(was, target, i) == SlotOf(was, target, 0)
      {
        if slots[i].idTask == target {
          var wasBusy := ReleaseSlot(i);
          OneChanged(slots, i, was);
          return;
        }
        i := i + 1;
      }
    }
  }
}
