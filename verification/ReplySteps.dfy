/** The steps of `update_slots` send, for a task, what its run shows, and so do whole runs of the server. */
module ReplySteps {
  import opened Wrappers
  import opened KvCache
  import opened Slots
  import opened UpdateSlots
  import opened Speculation
  import opened ContextSteps
  import opened Replies

  /** What was sent for the task on slot `i`, after `before`, is what its run over `smps` shows; no other slot has a
      task with its number. */
  ghost predicate Tells(cfg: Config, w: Work, i: nat, before: seq<Reply>, task: Task, smps: seq<Sample>) {
    && Shaped(w) && i < |w.slots| && w.slots[i].idTask == task.id
    && (forall k :: 0 <= k < |w.slots| && k != i ==> w.slots[k].idTask != task.id)
    && Carries(cfg, w.slots[i], before + RepliesTo(w.events, task.id), task, smps)
  }

  /** What slot `j` does, to itself and in events, while the others stay. */
  ghost predicate Acts(w: Work, r: Work, j: nat, told: seq<Event>) {
    && Shaped(w) && Shaped(r) && j < |w.slots| == |r.slots| && r.slots == w.slots[j := r.slots[j]]
    && r.slots[j].idTask == w.slots[j].idTask
    && r.events == w.events + told && (forall e :: e in told && e.Sent? ==> e.task == w.slots[j].idTask)
  }

  /** What another slot does changes nothing for the task. */
  lemma OtherActs(cfg: Config, w: Work, r: Work, i: nat, before: seq<Reply>, task: Task, smps: seq<Sample>, j: nat,
                  told: seq<Event>)
    requires Tells(cfg, w, i, before, task, smps) && Acts(w, r, j, told) && j != i
    ensures Tells(cfg, r, i, before, task, smps)
  {
    hide Carries, RepliesTo;
    RepliesConcat(w.events, told, task.id);
    NoReply(told, task.id);
    assert RepliesTo(w.events, task.id) + [] == RepliesTo(w.events, task.id);
  }

  /** What the slot itself does. */
  lemma OwnActs(cfg: Config, w: Work, r: Work, i: nat, before: seq<Reply>, task: Task, smps: seq<Sample>,
                told: seq<Event>, more: seq<Reply>, heard: seq<Sample>)
    requires Tells(cfg, w, i, before, task, smps) && Acts(w, r, i, told) && RepliesTo(told, task.id) == more
    requires Carries(cfg, r.slots[i], before + RepliesTo(w.events, task.id) + more, task, heard)
    ensures Tells(cfg, r, i, before, task, heard)
  {
    hide Carries, RepliesTo;
    RepliesConcat(w.events, told, task.id);
    assert before + RepliesTo(w.events, task.id) + more == before + (RepliesTo(w.events, task.id) + more);
  }

  // ------------------------------------------------------------------ building the batch

  /** Slot `j` goes on without a word, or its task is ended with an answer. */
  ghost predicate QuietOrEnded(w: Work, r: Work, j: nat) {
    && Shaped(w) && Shaped(r) && j < |w.slots| == |r.slots| && r.slots == w.slots[j := r.slots[j]]
    && var s, t := w.slots[j], r.slots[j];
    && SameOrder(s, t)
    && ((r.events == w.events && (Processing(t) ==> Processing(s)))
        || exists reply :: Ends(w, r, j, reply))
  }

  predicate Ends(w: Work, r: Work, j: nat, reply: Reply)
    requires j < |w.slots| == |r.slots|
  {
    && r.events == w.events + [Released(j), Sent(w.slots[j].idTask, reply)]
    && !Processing(r.slots[j]) && EndsQuietly(w.slots[j], reply)
  }

  lemma EndedTells(cfg: Config, w: Work, r: Work, i: nat, before: seq<Reply>, task: Task, smps: seq<Sample>, j: nat,
                   reply: Reply)
    requires Tells(cfg, w, i, before, task, smps) && QuietOrEnded(w, r, j) && Ends(w, r, j, reply)
    ensures Tells(cfg, r, i, before, task, smps)
  {
    hide Carries, RepliesTo;
    var told := [Released(j), Sent(w.slots[j].idTask, reply)];
    if j == i {
      CarriesEnd(cfg, w.slots[i], r.slots[i], before + RepliesTo(w.events, task.id), task, smps, reply);
      TwoReplies(Released(j), reply, task.id);
      OwnActs(cfg, w, r, i, before, task, smps, told, [reply], smps);
    } else {
      OtherActs(cfg, w, r, i, before, task, smps, j, told);
    }
  }

  lemma TwoReplies(e: Event, reply: Reply, task: int)
    requires !e.Sent?
    ensures RepliesTo([e, Sent(task, reply)], task) == [reply] == RepliesTo([Sent(task, reply), e], task)
    ensures RepliesTo([Sent(task, reply)], task) == [reply]
  {
    var a: seq<Event>, b: seq<Event> := [e], [Sent(task, reply)];
    assert a[..0] == [] && b[..0] == [];
    assert RepliesTo(a, task) == [] && RepliesTo(b, task) == [reply];
    RepliesConcat(a, b, task);
    RepliesConcat(b, a, task);
  }

  lemma QuietTells(cfg: Config, w: Work, r: Work, i: nat, before: seq<Reply>, task: Task, smps: seq<Sample>, j: nat)
    requires Tells(cfg, w, i, before, task, smps) && QuietOrEnded(w, r, j)
    ensures Tells(cfg, r, i, before, task, smps)
  {
    hide Carries, RepliesTo, Ends;
    if exists reply :: Ends(w, r, j, reply) {
      var reply :| Ends(w, r, j, reply);
      EndedTells(cfg, w, r, i, before, task, smps, j, reply);
    } else {
      if j == i { CarriesQuiet(cfg, w.slots[i], r.slots[i], before + RepliesTo(w.events, task.id), task, smps); }
    }
  }

  lemma ShiftIsQuiet(cfg: Config, w: Work, j: nat)
    requires Shaped(w) && j < |w.slots|
    ensures QuietOrEnded(w, ShiftStep(cfg, w, j), j)
  {
    var s, r := w.slots[j], ShiftStep(cfg, w, j);
    hide ShiftedCache, ShiftedKv;
    if NeedsShift(cfg, s) && !cfg.ctxShift { assert Ends(w, r, j, Error(ShiftDisabled)); }
  }

  lemma SampledIsQuiet(w: Work, j: nat)
    requires Shaped(w) && j < |w.slots|
    ensures QuietOrEnded(w, SampledStep(w, j), j)
  {
  }

  lemma {:induction false} AddTokensIsQuiet(cfg: Config, w: Work, j: nat)
    requires Shaped(w) && j < |w.slots|
    ensures var r := AddTokens(cfg, w, j);
            && r.events == w.events && r.slots == w.slots[j := r.slots[j]] && SameOrder(w.slots[j], r.slots[j])
    decreases cfg.nBatch - |w.batch|
  {
    var s := w.slots[j];
    if Feeds(cfg, w, s) {
      AddTokensIsQuiet(cfg, PushToken(w, j, s.prompt[s.nPast], s.kind == Embedding && cfg.noPooling), j);
    }
  }

  lemma IngestIsQuiet(cfg: Config, o: Oracle, w: Work, j: nat)
    requires Shaped(w) && j < |w.slots|
    ensures var r := IngestTurn(cfg, o, w, j).work;
            && r.events == w.events && r.slots == w.slots[j := r.slots[j]] && SameOrder(w.slots[j], r.slots[j])
  {
    var s := w.slots[j];
    if !(NonCausal(s) && |w.batch| + s.nPromptTokens > cfg.nBatch) {
      AddTokensIsQuiet(cfg, Trimmed(w, j, o.removes(j)), j);
    }
  }

  lemma OpenIsQuiet(cfg: Config, s: Slot, kv: Kv)
    requires s.phase == Started
    ensures var r := OpenPrompt(cfg, s, kv);
            SameOrder(s, r.slot) && (r.Refused? ==> r.slot.phase == Idle && EndsQuietly(s, r.reply))
  {
  }

  lemma TurnIsQuiet(cfg: Config, o: Oracle, w: Work, j: nat)
    requires Shaped(w) && j < |w.slots|
    ensures QuietOrEnded(w, PromptTurn(cfg, o, w, j).work, j)
  {
    var s, r := w.slots[j], PromptTurn(cfg, o, w, j).work;
    if HasPrompt(s) && Joins(w, j) {
      if s.phase == ProcessingPrompt {
        IngestIsQuiet(cfg, o, Joined(w, j), j);
      } else {
        OpenIsQuiet(cfg, s, w.kv[j]);
        hide OpenPrompt, IngestTurn;
        match OpenPrompt(cfg, s, w.kv[j])
        case Refused(t, reply) => assert Ends(w, r, j, reply);
        case Opened(t, kv) => IngestIsQuiet(cfg, o, Put(Joined(w, j), j, t).(kv := w.kv[j := kv]), j);
      }
    }
  }

  lemma {:induction false} ShiftTells(cfg: Config, w: Work, j: nat, i: nat, before: seq<Reply>, task: Task,
                                      smps: seq<Sample>)
    requires Tells(cfg, w, i, before, task, smps) && j <= |w.slots|
    ensures Tells(cfg, ShiftFrom(cfg, w, j), i, before, task, smps)
    decreases |w.slots| - j
  {
    hide Carries, RepliesTo;
    if j < |w.slots| {
      ShiftIsQuiet(cfg, w, j);
      var v := ShiftStep(cfg, w, j);
      assert ShiftFrom(cfg, w, j) == ShiftFrom(cfg, v, j + 1) && j < |v.slots|;
      hide *;
      QuietTells(cfg, w, v, i, before, task, smps, j);
      ShiftTells(cfg, v, j + 1, i, before, task, smps);
    }
  }

  lemma {:induction false} SampledTells(cfg: Config, w: Work, j: nat, i: nat, before: seq<Reply>, task: Task,
                                        smps: seq<Sample>)
    requires Tells(cfg, w, i, before, task, smps) && j <= |w.slots|
    ensures Tells(cfg, SampledFrom(w, j), i, before, task, smps)
    decreases |w.slots| - j
  {
    hide Carries, RepliesTo;
    if j < |w.slots| {
      SampledIsQuiet(w, j);
      var v := SampledStep(w, j);
      assert SampledFrom(w, j) == SampledFrom(v, j + 1) && j < |v.slots|;
      hide *;
      QuietTells(cfg, w, v, i, before, task, smps, j);
      SampledTells(cfg, v, j + 1, i, before, task, smps);
    }
  }

  lemma BuiltTells(cfg: Config, o: Oracle, w: Work, i: nat, before: seq<Reply>, task: Task, smps: seq<Sample>)
    requires Tells(cfg, w, i, before, task, smps)
    ensures Tells(cfg, BuiltFrom(cfg, o, w), i, before, task, smps)
  {
    hide Carries, RepliesTo;
    var a := ShiftFrom(cfg, w, 0).(batch := [], logits := [], batched := None);
    ShiftTells(cfg, w, 0, i, before, task, smps);
    assert Tells(cfg, a, i, before, task, smps);
    var b := SampledFrom(a, 0);
    SampledTells(cfg, a, 0, i, before, task, smps);
    assert BuiltFrom(cfg, o, w) == Prompts(cfg, o, b);
    hide BuiltFrom, ShiftFrom, SampledFrom, PromptTurn, Tells, QuietOrEnded;
    if cfg.contBatching || b.batch == [] {
      var inv := (v: Work, k: nat) => Tells(cfg, v, i, before, task, smps);
      forall v: Work, k: nat | inv(v, k) && Shaped(v) && k < |v.slots|
        ensures inv(PromptTurn(cfg, o, v, k).work, k + 1)
      {
        TurnIsQuiet(cfg, o, v, k);
        QuietTells(cfg, v, PromptTurn(cfg, o, v, k).work, i, before, task, smps, k);
      }
      var _ := PromptsKeep(cfg, o, b, 0, PromptsFrom(cfg, o, b, 0), inv);
    }
  }

  // ------------------------------------------------------------------ tokens

  /** The events of a token that was handled. */
  function Concluding(p: Processed, i: nat): seq<Event> {
    PartialEvents(p.slot, p.out)
    + if p.slot.text.hasNext then [] else [Released(i), Sent(p.slot.idTask, FinalReply(p.slot))]
  }

  lemma ConcludingReplies(p: Processed, i: nat)
    ensures RepliesTo(Concluding(p, i), p.slot.idTask) == Shown(p) + Closing(p)
    ensures forall e :: e in Concluding(p, i) && e.Sent? ==> e.task == p.slot.idTask
  {
    var a, id := PartialEvents(p.slot, p.out), p.slot.idTask;
    var b := if p.slot.text.hasNext then [] else [Released(i), Sent(id, FinalReply(p.slot))];
    assert RepliesTo([], id) == [];
    if p.out.Some? { TwoReplies(Released(i), Partial(p.out.value), id); }
    TwoReplies(Released(i), FinalReply(p.slot), id);
    RepliesConcat(a, b, id);
  }

  lemma ConcludedActs(w: Work, i: nat, p: Processed)
    requires Shaped(w) && i < |w.slots| && p.slot.idTask == w.slots[i].idTask
    ensures Acts(w, Concluded(w, i, p), i, Concluding(p, i)) && Concluded(w, i, p).slots[i] == After(p)
  {
    ConcludingReplies(p, i);
    hide RepliesTo, FinalReply, PartialEvents;
    var told := PartialEvents(p.slot, p.out);
    var last := [Released(i), Sent(p.slot.idTask, FinalReply(p.slot))];
    assert w.events + told + last == w.events + (told + last);
    assert w.events + told + [] == w.events + (told + []);
  }

  /** A token of the task, told. */
  lemma ConcludedTells(cfg: Config, w: Work, i: nat, before: seq<Reply>, task: Task, smps: seq<Sample>, smp: Sample)
    requires Tells(cfg, w, i, before, task, smps) && Processing(w.slots[i]) && w.slots[i].nDecoded >= 1
    ensures Tells(cfg, Concluded(w, i, ProcessToken(cfg, w.slots[i], smp)), i, before, task, smps + [smp])
  {
    hide Carries, RepliesTo;
    var p := ProcessToken(cfg, w.slots[i], smp);
    ProcessTokenStops(cfg, w.slots[i], smp);
    hide ProcessToken, Concluded, Concluding, Shown, Closing, After, Acts;
    ConcludedActs(w, i, p);
    ConcludingReplies(p, i);
    var replies := before + RepliesTo(w.events, task.id);
    CarriesToken(cfg, w.slots[i], replies, task, smps, smp);
    Regrouped(replies, Shown(p), Closing(p));
    OwnActs(cfg, w, Concluded(w, i, p), i, before, task, smps, Concluding(p, i), Shown(p) + Closing(p), smps + [smp]);
  }

  lemma Regrouped(a: seq<Reply>, b: seq<Reply>, c: seq<Reply>)
    ensures a + b + c == a + (b + c)
  {
  }

  // ------------------------------------------------------------------ views

  /** The token that a decoded view gives slot `s`, which is slot `i`: one if its entry is in the view, and none if it
      wants an embedding or a score. */
  function HeardInView(o: Oracle, call: nat, start: nat, count: nat, s: Slot, i: nat): seq<Sample> {
    if start <= s.iBatch < start + count
       && (s.phase == Generating || (s.phase == DonePrompt && s.kind != Embedding && s.kind != Rerank))
    then [o.samples(call, i)] else []
  }

  /** The accepted tokens of a draft, up to one that ends the task. */
  function HeardInDraft(cfg: Config, o: Oracle, call: nat, s: Slot, i: nat): seq<Sample> {
    if !Speculates(cfg, o, call, s, i) then [] else
    var ids := StepIds(cfg, o, call, s, i);
    ids[..Told(cfg, Advanced(s, ids), ids, 0)]
  }

  /** An event that is no result changes nothing for the task. */
  lemma EventTells(cfg: Config, w: Work, r: Work, i: nat, before: seq<Reply>, task: Task, smps: seq<Sample>, e: Event)
    requires Tells(cfg, w, i, before, task, smps) && !e.Sent?
    requires Shaped(r) && r.slots == w.slots && r.events == w.events + [e]
    ensures Tells(cfg, r, i, before, task, smps)
  {
    hide Carries;
    assert (w.events + [e])[..|w.events|] == w.events;
    assert RepliesTo(w.events, task.id) + [] == RepliesTo(w.events, task.id);
  }

  /** The slot is counted before its token is processed. */
  lemma CountedTells(cfg: Config, w: Work, i: nat, before: seq<Reply>, task: Task, smps: seq<Sample>)
    requires Tells(cfg, w, i, before, task, smps) && Processing(w.slots[i])
    ensures Tells(cfg, Put(w, i, Counted(w.slots[i])), i, before, task, smps)
  {
    hide Carries, RepliesTo;
    CarriesQuiet(cfg, w.slots[i], Counted(w.slots[i]), before + RepliesTo(w.events, task.id), task, smps);
  }

  lemma DrawnTells(cfg: Config, w: Work, i: nat, before: seq<Reply>, task: Task, smps: seq<Sample>, index: int,
                   smp: Sample)
    requires Tells(cfg, w, i, before, task, smps) && Processing(w.slots[i])
    ensures Tells(cfg, DrawToken(cfg, w, i, index, smp), i, before, task, smps + [smp])
  {
    hide Carries, RepliesTo;
    var c := Put(w, i, Counted(w.slots[i]));
    var d := Tell(c, [Sampled(i, index)]);
    CountedFirst(cfg, w, i, index, smp);
    CountedTells(cfg, w, i, before, task, smps);
    hide Tells, Concluded, ProcessToken, DrawToken;
    EventTells(cfg, c, d, i, before, task, smps, Sampled(i, index));
    ConcludedTells(cfg, d, i, before, task, smps, smp);
  }

  /** An embedding or a score is sent. */
  lemma EarlyTells(cfg: Config, w: Work, i: nat, before: seq<Reply>, task: Task, smps: seq<Sample>, j: nat)
    requires Tells(cfg, w, i, before, task, smps) && j < |w.slots| && NonCausal(w.slots[j])
    ensures var r := Tell(Put(w, j, Release(w.slots[j]).(iBatch := -1)), EarlyEvents(w.slots[j], j));
            Tells(cfg, r, i, before, task, smps)
  {
    hide Carries, RepliesTo;
    var s := w.slots[j];
    var reply := if s.kind == Embedding then Embeddings else Score;
    var r, told := Tell(Put(w, j, Release(s).(iBatch := -1)), EarlyEvents(s, j)), EarlyEvents(s, j);
    assert Acts(w, r, j, told);
    if j == i {
      assert told == [Read(j)] + [Sent(s.idTask, reply), Released(j)];
      RepliesConcat([Read(j)], [Sent(s.idTask, reply), Released(j)], task.id);
      NoReply([Read(j)], task.id);
      TwoReplies(Released(j), reply, task.id);
      CarriesEnd(cfg, s, r.slots[i], before + RepliesTo(w.events, task.id), task, smps, reply);
      OwnActs(cfg, w, r, i, before, task, smps, told, [reply], smps);
    } else {
      OtherActs(cfg, w, r, i, before, task, smps, j, told);
    }
  }

  lemma ActsAgain(w: Work, v: Work, r: Work, j: nat, a: seq<Event>, b: seq<Event>)
    requires Acts(w, v, j, a) && Acts(v, r, j, b)
    ensures Acts(w, r, j, a + b)
  {
    assert w.events + a + b == w.events + (a + b);
  }

  lemma DrawnActs(cfg: Config, w: Work, j: nat, index: int, smp: Sample) returns (told: seq<Event>)
    requires Shaped(w) && j < |w.slots|
    ensures Acts(w, DrawToken(cfg, w, j, index, smp), j, told)
  {
    var p := ProcessToken(cfg, Counted(w.slots[j]), smp);
    ProcessTokenStops(cfg, Counted(w.slots[j]), smp);
    hide ProcessToken, Concluded, Concluding;
    var t := Tell(w, [Sampled(j, index)]);
    ConcludedActs(t, j, p);
    told := [Sampled(j, index)] + Concluding(p, j);
    ActsAgain(w, t, Concluded(t, j, p), j, [Sampled(j, index)], Concluding(p, j));
  }

  /** The step of the pass over slots, as an act of the slot. */
  lemma HandleStepActs(cfg: Config, o: Oracle, call: nat, start: nat, count: nat, w: Work, j: nat)
      returns (told: seq<Event>)
    requires Shaped(w) && j < |w.slots|
    ensures Acts(w, HandleStep(cfg, o, call, start, count, w, j), j, told)
  {
    var s := w.slots[j];
    if !InView(s, start, count) || (s.phase != DonePrompt && s.phase != Generating) {
      QuietStep(cfg, o, call, start, count, w, j);
      told := [];
    } else if s.phase == DonePrompt && NonCausal(s) {
      EarlyStep(cfg, o, call, start, count, w, j);
      told := EarlyEvents(s, j);
    } else {
      DrawnStep(cfg, o, call, start, count, w, j);
      hide *;
      told := DrawnActs(cfg, w, j, s.iBatch - start, o.samples(call, j));
    }
  }

  lemma OtherIsHandled(cfg: Config, o: Oracle, call: nat, start: nat, count: nat, w: Work, j: nat, i: nat,
                       before: seq<Reply>, task: Task, smps: seq<Sample>)
    requires Tells(cfg, w, i, before, task, smps) && j < |w.slots| && j != i
    ensures Tells(cfg, HandleStep(cfg, o, call, start, count, w, j), i, before, task, smps)
    ensures i < |w.slots| && HandleStep(cfg, o, call, start, count, w, j).slots[i] == w.slots[i]
  {
    hide Carries, RepliesTo, HandleStep;
    var told := HandleStepActs(cfg, o, call, start, count, w, j);
    OtherActs(cfg, w, HandleStep(cfg, o, call, start, count, w, j), i, before, task, smps, j, told);
  }

  lemma OwnIsHandled(cfg: Config, o: Oracle, call: nat, start: nat, count: nat, w: Work, i: nat, before: seq<Reply>,
                     task: Task, smps: seq<Sample>)
    requires Tells(cfg, w, i, before, task, smps)
    ensures Tells(cfg, HandleStep(cfg, o, call, start, count, w, i), i, before, task,
                  smps + HeardInView(o, call, start, count, w.slots[i], i))
  {
    hide Carries, RepliesTo;
    TellsShape(cfg, w, i, before, task, smps);
    var s := w.slots[i];
    if !InView(s, start, count) || (s.phase != DonePrompt && s.phase != Generating) {
      QuietStep(cfg, o, call, start, count, w, i);
      assert HeardInView(o, call, start, count, s, i) == [];
      hide *;
    } else if s.phase == DonePrompt && NonCausal(s) {
      EarlyStepIs(cfg, o, call, start, count, w, i);
      assert HeardInView(o, call, start, count, s, i) == [];
      hide *;
      EarlyTells(cfg, w, i, before, task, smps, i);
    } else {
      DrawnStep(cfg, o, call, start, count, w, i);
      assert HeardInView(o, call, start, count, s, i) == [o.samples(call, i)];
      assert Processing(s);
      hide *;
      DrawnTells(cfg, w, i, before, task, smps, s.iBatch - start, o.samples(call, i));
    }
  }

  lemma TellsShape(cfg: Config, w: Work, i: nat, before: seq<Reply>, task: Task, smps: seq<Sample>)
    requires Tells(cfg, w, i, before, task, smps)
    ensures Shaped(w) && i < |w.slots| && smps + [] == smps
  {
    hide Carries, RepliesTo;
  }

  lemma HandleUnfolds(cfg: Config, o: Oracle, call: nat, start: nat, count: nat, w: Work, j: nat)
    requires Shaped(w) && j <= |w.slots|
    ensures HandleFrom(cfg, o, call, start, count, w, j)
            == if j == |w.slots| then w
               else HandleFrom(cfg, o, call, start, count, HandleStep(cfg, o, call, start, count, w, j), j + 1)
  {
    hide HandleStep;
  }

  /** The steps for the slots behind slot `i`. */
  lemma {:induction false} RestIsHandled(cfg: Config, o: Oracle, call: nat, start: nat, count: nat, w: Work, j: nat,
                                         i: nat, before: seq<Reply>, task: Task, smps: seq<Sample>)
    requires Tells(cfg, w, i, before, task, smps) && i < j <= |w.slots|
    ensures Tells(cfg, HandleFrom(cfg, o, call, start, count, w, j), i, before, task, smps)
    decreases |w.slots| - j
  {
    hide *;
    TellsShape(cfg, w, i, before, task, smps);
    HandleUnfolds(cfg, o, call, start, count, w, j);
    if j < |w.slots| {
      var v := HandleStep(cfg, o, call, start, count, w, j);
      OtherIsHandled(cfg, o, call, start, count, w, j, i, before, task, smps);
      RestIsHandled(cfg, o, call, start, count, v, j + 1, i, before, task, smps);
    }
  }

  lemma {:induction false} HandleTells(cfg: Config, o: Oracle, call: nat, start: nat, count: nat, w: Work, j: nat,
                                       i: nat, before: seq<Reply>, task: Task, smps: seq<Sample>)
    requires Tells(cfg, w, i, before, task, smps) && j <= i
    ensures Tells(cfg, HandleFrom(cfg, o, call, start, count, w, j), i, before, task,
                  smps + HeardInView(o, call, start, count, w.slots[i], i))
    decreases |w.slots| - j
  {
    hide *;
    TellsShape(cfg, w, i, before, task, smps);
    HandleUnfolds(cfg, o, call, start, count, w, j);
    var v := HandleStep(cfg, o, call, start, count, w, j);
    if j < i {
      OtherIsHandled(cfg, o, call, start, count, w, j, i, before, task, smps);
      HandleTells(cfg, o, call, start, count, v, j + 1, i, before, task, smps);
    } else {
      OwnIsHandled(cfg, o, call, start, count, w, i, before, task, smps);
      RestIsHandled(cfg, o, call, start, count, v, j + 1, i, before, task,
        smps + HeardInView(o, call, start, count, w.slots[i], i));
    }
  }

  // ------------------------------------------------------------------ drafts

  lemma {:induction false} EmitTells(cfg: Config, w: Work, i: nat, ids: seq<Sample>, j: nat, before: seq<Reply>,
                                     task: Task, smps: seq<Sample>)
    requires Tells(cfg, w, i, before, task, smps) && j <= |ids|
    requires j < |ids| ==> Processing(w.slots[i]) && w.slots[i].nDecoded >= 1
    ensures Tells(cfg, EmitFrom(cfg, w, i, ids, j), i, before, task, smps + ids[j..j + Told(cfg, w.slots[i], ids, j)])
    decreases |ids| - j
  {
    hide *;
    TellsShape(cfg, w, i, before, task, smps);
    if j == |ids| {
      EmitEnd(cfg, w, i, ids);
      assert smps + ids[j..j] == smps;
    } else {
      var p := ProcessToken(cfg, w.slots[i], ids[j]);
      var v := Concluded(w, i, p);
      EmitUnfold(cfg, w, i, ids, j);
      ConcludedTells(cfg, w, i, before, task, smps, ids[j]);
      TakenNext(smps, ids, j, Told(cfg, w.slots[i], ids, j));
      if p.slot.text.hasNext { EmitTells(cfg, v, i, ids, j + 1, before, task, smps + [ids[j]]); }
    }
  }

  lemma EmitEnd(cfg: Config, w: Work, i: nat, ids: seq<Sample>)
    requires Shaped(w) && i < |w.slots|
    ensures EmitFrom(cfg, w, i, ids, |ids|) == w && Told(cfg, w.slots[i], ids, |ids|) == 0
  {
  }

  lemma EmitUnfold(cfg: Config, w: Work, i: nat, ids: seq<Sample>, j: nat)
    requires Shaped(w) && i < |w.slots| && j < |ids| && Processing(w.slots[i]) && w.slots[i].nDecoded >= 1
    ensures var p := ProcessToken(cfg, w.slots[i], ids[j]);
            var v, n := Concluded(w, i, p), Told(cfg, w.slots[i], ids, j);
            && EmitFrom(cfg, w, i, ids, j) == (if p.slot.text.hasNext then EmitFrom(cfg, v, i, ids, j + 1) else v)
            && (p.slot.text.hasNext ==>
                  && n == 1 + Told(cfg, v.slots[i], ids, j + 1)
                  && Processing(v.slots[i]) && v.slots[i].nDecoded >= 1)
            && (!p.slot.text.hasNext ==> n == 1)
  {
    ProcessTokenStops(cfg, w.slots[i], ids[j]);
    hide ProcessToken;
  }

  lemma TakenNext(smps: seq<Sample>, ids: seq<Sample>, j: nat, n: nat)
    requires 1 <= n <= |ids| - j
    ensures smps + [ids[j]] + ids[j + 1..j + 1 + (n - 1)] == smps + ids[j..j + n] && ids[j + 1..j + 1] == []
    ensures n == 1 ==> smps + [ids[j]] == smps + ids[j..j + n]
  {
  }

  lemma {:induction false} EmitActs(cfg: Config, w: Work, j: nat, ids: seq<Sample>, n: nat) returns (told: seq<Event>)
    requires Shaped(w) && j < |w.slots| && n <= |ids| && (n < |ids| ==> w.slots[j].nDecoded >= 1)
    ensures Acts(w, EmitFrom(cfg, w, j, ids, n), j, told)
    decreases |ids| - n
  {
    told := [];
    if n < |ids| {
      var p := ProcessToken(cfg, w.slots[j], ids[n]);
      var v := Concluded(w, j, p);
      ProcessTokenStops(cfg, w.slots[j], ids[n]);
      ConcludedActs(w, j, p);
      hide ProcessToken, Concluded, Acts;
      told := Concluding(p, j);
      if p.slot.text.hasNext {
        var more := EmitActs(cfg, v, j, ids, n + 1);
        ActsAgain(w, v, EmitFrom(cfg, v, j, ids, n + 1), j, told, more);
        told := told + more;
      }
    }
  }

  /** The work before the accepted tokens of slot `j` are told. */
  function Accepting(cfg: Config, o: Oracle, call: nat, w: Work, j: nat): (v: Work)
    requires Shaped(w) && j < |w.slots|
    ensures Shaped(v) && |v.slots| == |w.slots|
  {
    var s := w.slots[j];
    var draft := Draft(cfg, o, call, s, j);
    var ids := AcceptedIds(o, call, j, draft);
    Put(w, j, Advanced(s, ids)).(kv := w.kv[j := AdvancedKv(s, w.kv[j], draft, ids, InForce(w), o.verifies(call, j))])
  }

  lemma SpeculateStepIs(cfg: Config, o: Oracle, call: nat, w: Work, j: nat)
    requires Shaped(w) && j < |w.slots|
    ensures SpeculateStep(cfg, o, call, w, j)
            == if Speculates(cfg, o, call, w.slots[j], j)
               then EmitFrom(cfg, Accepting(cfg, o, call, w, j), j, StepIds(cfg, o, call, w.slots[j], j), 0) else w
    ensures var s, v := w.slots[j], Accepting(cfg, o, call, w, j);
            && v.events == w.events && v.slots == w.slots[j := Advanced(s, StepIds(cfg, o, call, s, j))]
            && v.slots[j].nDecoded >= 1
  {
    hide Draft, AcceptedIds, AdvancedKv, EmitFrom;
  }

  lemma AcceptingTells(cfg: Config, o: Oracle, call: nat, w: Work, j: nat, i: nat, before: seq<Reply>, task: Task,
                       smps: seq<Sample>)
    requires Tells(cfg, w, i, before, task, smps) && j < |w.slots| && Processing(w.slots[j])
    ensures Tells(cfg, Accepting(cfg, o, call, w, j), i, before, task, smps)
  {
    hide Carries, RepliesTo;
    SpeculateStepIs(cfg, o, call, w, j);
    hide Accepting, StepIds, Toks;
    QuietTells(cfg, w, Accepting(cfg, o, call, w, j), i, before, task, smps, j);
  }

  lemma NothingActs(w: Work, v: Work, j: nat)
    requires Shaped(w) && Shaped(v) && j < |w.slots| == |v.slots| && v.events == w.events
    requires v.slots == w.slots[j := v.slots[j]] && v.slots[j].idTask == w.slots[j].idTask
    ensures Acts(w, v, j, [])
  {
  }

  lemma SpeculateStepActs(cfg: Config, o: Oracle, call: nat, w: Work, j: nat) returns (told: seq<Event>)
    requires Shaped(w) && j < |w.slots|
    ensures Acts(w, SpeculateStep(cfg, o, call, w, j), j, told)
  {
    hide *;
    var s, v := w.slots[j], Accepting(cfg, o, call, w, j);
    SpeculateStepIs(cfg, o, call, w, j);
    told := [];
    if Speculates(cfg, o, call, s, j) {
      AdvancedIsSame(s, StepIds(cfg, o, call, s, j));
      NothingActs(w, v, j);
      told := EmitActs(cfg, v, j, StepIds(cfg, o, call, s, j), 0);
      ActsAgain(w, v, SpeculateStep(cfg, o, call, w, j), j, [], told);
      assert [] + told == told;
    } else {
      NothingActs(w, w, j);
    }
  }

  lemma AdvancedIsSame(s: Slot, ids: seq<Sample>)
    requires ids != []
    ensures Advanced(s, ids).idTask == s.idTask
  {
  }

  lemma OtherSpeculates(cfg: Config, o: Oracle, call: nat, w: Work, j: nat, i: nat, before: seq<Reply>, task: Task,
                        smps: seq<Sample>)
    requires Tells(cfg, w, i, before, task, smps) && j < |w.slots| && j != i
    ensures Tells(cfg, SpeculateStep(cfg, o, call, w, j), i, before, task, smps)
    ensures i < |w.slots| && SpeculateStep(cfg, o, call, w, j).slots[i] == w.slots[i]
  {
    hide Carries, RepliesTo, SpeculateStep;
    var told := SpeculateStepActs(cfg, o, call, w, j);
    OtherActs(cfg, w, SpeculateStep(cfg, o, call, w, j), i, before, task, smps, j, told);
  }

  lemma OwnSpeculates(cfg: Config, o: Oracle, call: nat, w: Work, i: nat, before: seq<Reply>, task: Task,
                      smps: seq<Sample>)
    requires Tells(cfg, w, i, before, task, smps)
    ensures Tells(cfg, SpeculateStep(cfg, o, call, w, i), i, before, task,
                  smps + HeardInDraft(cfg, o, call, w.slots[i], i))
  {
    hide Carries, RepliesTo;
    TellsShape(cfg, w, i, before, task, smps);
    SpeculateStepIs(cfg, o, call, w, i);
    var s := w.slots[i];
    if Speculates(cfg, o, call, s, i) {
      var v, ids := Accepting(cfg, o, call, w, i), StepIds(cfg, o, call, s, i);
      assert Processing(s) && Processing(v.slots[i]);
      assert HeardInDraft(cfg, o, call, s, i) == ids[0..0 + Told(cfg, v.slots[i], ids, 0)] by { hide Told, StepIds; }
      hide *;
      AcceptingTells(cfg, o, call, w, i, i, before, task, smps);
      EmitTells(cfg, v, i, ids, 0, before, task, smps);
    }
  }

  lemma SpeculateUnfolds(cfg: Config, o: Oracle, call: nat, w: Work, j: nat)
    requires Shaped(w) && j <= |w.slots|
    ensures SpeculateFrom(cfg, o, call, w, j)
            == if j == |w.slots| then w else SpeculateFrom(cfg, o, call, SpeculateStep(cfg, o, call, w, j), j + 1)
  {
    hide SpeculateStep;
  }

  lemma {:induction false} RestSpeculates(cfg: Config, o: Oracle, call: nat, w: Work, j: nat, i: nat,
                                          before: seq<Reply>, task: Task, smps: seq<Sample>)
    requires Tells(cfg, w, i, before, task, smps) && i < j <= |w.slots|
    ensures Tells(cfg, SpeculateFrom(cfg, o, call, w, j), i, before, task, smps)
    decreases |w.slots| - j
  {
    hide *;
    TellsShape(cfg, w, i, before, task, smps);
    SpeculateUnfolds(cfg, o, call, w, j);
    if j < |w.slots| {
      OtherSpeculates(cfg, o, call, w, j, i, before, task, smps);
      RestSpeculates(cfg, o, call, SpeculateStep(cfg, o, call, w, j), j + 1, i, before, task, smps);
    }
  }

  lemma {:induction false} SpeculateTells(cfg: Config, o: Oracle, call: nat, w: Work, j: nat, i: nat,
                                          before: seq<Reply>, task: Task, smps: seq<Sample>)
    requires Tells(cfg, w, i, before, task, smps) && j <= i
    ensures Tells(cfg, SpeculateFrom(cfg, o, call, w, j), i, before, task,
                  smps + HeardInDraft(cfg, o, call, w.slots[i], i))
    decreases |w.slots| - j
  {
    hide *;
    TellsShape(cfg, w, i, before, task, smps);
    SpeculateUnfolds(cfg, o, call, w, j);
    var v := SpeculateStep(cfg, o, call, w, j);
    if j < i {
      OtherSpeculates(cfg, o, call, w, j, i, before, task, smps);
      SpeculateTells(cfg, o, call, v, j + 1, i, before, task, smps);
    } else {
      OwnSpeculates(cfg, o, call, w, i, before, task, smps);
      RestSpeculates(cfg, o, call, v, j + 1, i, before, task, smps + HeardInDraft(cfg, o, call, w.slots[i], i));
    }
  }

  // ------------------------------------------------------------------ the decode loop

  lemma {:induction false} GiveUpTells(cfg: Config, w: Work, j: nat, i: nat, before: seq<Reply>, task: Task,
                                       smps: seq<Sample>)
    requires Tells(cfg, w, i, before, task, smps) && j <= |w.slots|
    ensures Tells(cfg, GiveUpFrom(w, j), i, before, task, smps)
    decreases |w.slots| - j
  {
    hide Carries, RepliesTo;
    TellsShape(cfg, w, i, before, task, smps);
    if j < |w.slots| {
      GiveUpOneTells(cfg, w, j, i, before, task, smps);
      hide GiveUpOne, Tells;
      GiveUpTells(cfg, GiveUpOne(w, j), j + 1, i, before, task, smps);
    }
  }

  lemma GiveUpOneActs(w: Work, j: nat) returns (told: seq<Event>)
    requires Shaped(w) && j < |w.slots|
    ensures Acts(w, GiveUpOne(w, j), j, told) && GiveUpOne(w, j).slots[j] == Release(w.slots[j])
    ensures || told == [Released(j), Sent(w.slots[j].idTask, Error(KvFull))]
            || told == [Sent(w.slots[j].idTask, Error(KvFull))]
  {
    var s := w.slots[j];
    told := if Processing(s) then [Released(j), Sent(s.idTask, Error(KvFull))] else [Sent(s.idTask, Error(KvFull))];
    assert (if Processing(s) then [Released(j)] else []) + [Sent(s.idTask, Error(KvFull))] == told;
  }

  lemma GiveUpOneTells(cfg: Config, w: Work, j: nat, i: nat, before: seq<Reply>, task: Task, smps: seq<Sample>)
    requires Tells(cfg, w, i, before, task, smps) && j < |w.slots|
    ensures Tells(cfg, GiveUpOne(w, j), i, before, task, smps)
  {
    hide Carries, RepliesTo, GiveUpOne;
    var s, r := w.slots[j], GiveUpOne(w, j);
    var told := GiveUpOneActs(w, j);
    if j == i {
      TwoReplies(Released(j), Error(KvFull), task.id);
      CarriesEnd(cfg, s, Release(s), before + RepliesTo(w.events, task.id), task, smps, Error(KvFull));
      OwnActs(cfg, w, r, i, before, task, smps, told, [Error(KvFull)], smps);
    } else {
      OtherActs(cfg, w, r, i, before, task, smps, j, told);
    }
  }

  /** The tokens that the decode loop, from `l` on, gets for slot `i` from the library: per decoded view at most one
      that is sampled, and the accepted ones of a draft. */
  function Heard(cfg: Config, o: Oracle, l: Loop, i: nat): seq<Sample>
    requires Shaped(l.work) && l.nBatch >= 1 && i < |l.work.slots|
    decreases |l.work.batch| - l.i, l.nBatch
  {
    match DecodeTurn(cfg, o, l)
    case Stop(_) => []
    case Again(m) => (if o.decodes(l.call) == 0 then HeardInTurn(cfg, o, l, i) else []) + Heard(cfg, o, m, i)
  }

  function HeardInTurn(cfg: Config, o: Oracle, l: Loop, i: nat): seq<Sample>
    requires Shaped(l.work) && i < |l.work.slots| && l.i < |l.work.batch|
  {
    var count := Min(l.nBatch, |l.work.batch| - l.i);
    var h := HandleFrom(cfg, o, l.call, l.i, count, ViewDecoded(l.work, l.i, count), 0);
    HeardInView(o, l.call, l.i, count, l.work.slots[i], i)
    + if cfg.hasDraft then HeardInDraft(cfg, o, l.call, h.slots[i], i) else []
  }

  lemma ViewIs(cfg: Config, o: Oracle, l: Loop, i: nat, d: Work, h: Work, count: nat)
    requires Shaped(l.work) && i < |l.work.slots| && l.i < |l.work.batch|
    requires count == Min(l.nBatch, |l.work.batch| - l.i)
    requires d == ViewDecoded(l.work, l.i, count) && h == HandleFrom(cfg, o, l.call, l.i, count, d, 0)
    ensures d.slots == l.work.slots && d.events == l.work.events + [Decoded(l.i, count)] && Shaped(d)
    ensures ViewDone(cfg, o, l.call, l.i, count, l.work)
            == if cfg.hasDraft then SpeculateFrom(cfg, o, l.call, h, 0) else h
    ensures HeardInTurn(cfg, o, l, i)
            == HeardInView(o, l.call, l.i, count, d.slots[i], i)
               + if cfg.hasDraft then HeardInDraft(cfg, o, l.call, h.slots[i], i) else []
  {
    hide HandleFrom, SpeculateFrom, HeardInView, HeardInDraft;
  }

  lemma ViewTells(cfg: Config, o: Oracle, l: Loop, i: nat, before: seq<Reply>, task: Task, smps: seq<Sample>)
    requires Tells(cfg, l.work, i, before, task, smps) && l.i < |l.work.batch| && l.nBatch >= 1
    ensures Tells(cfg, ViewDone(cfg, o, l.call, l.i, Min(l.nBatch, |l.work.batch| - l.i), l.work), i, before, task,
                  smps + HeardInTurn(cfg, o, l, i))
  {
    hide Carries, RepliesTo, HandleFrom, ViewDone, HeardInTurn;
    TellsShape(cfg, l.work, i, before, task, smps);
    var count := Min(l.nBatch, |l.work.batch| - l.i);
    var d := ViewDecoded(l.work, l.i, count);
    var h := HandleFrom(cfg, o, l.call, l.i, count, d, 0);
    ViewIs(cfg, o, l, i, d, h, count);
    hide *;
    EventTells(cfg, l.work, d, i, before, task, smps, Decoded(l.i, count));
    HandleTells(cfg, o, l.call, l.i, count, d, 0, i, before, task, smps);
    var seen := HeardInView(o, l.call, l.i, count, d.slots[i], i);
    if cfg.hasDraft {
      SpeculateTells(cfg, o, l.call, h, 0, i, before, task, smps + seen);
      var drafted := HeardInDraft(cfg, o, l.call, h.slots[i], i);
      assert smps + (seen + drafted) == smps + seen + drafted;
    } else {
      assert seen + [] == seen;
    }
  }

  /** The turn of the loop, and what is heard in it. */
  lemma DecodeUnfold(cfg: Config, o: Oracle, l: Loop, i: nat) returns (heard: seq<Sample>)
    requires Shaped(l.work) && l.nBatch >= 1 && i < |l.work.slots|
    ensures DecodeTurn(cfg, o, l).Stop? ==>
              var r := DecodeTurn(cfg, o, l).outcome;
              && DecodeFrom(cfg, o, l) == r && Heard(cfg, o, l, i) == [] == heard
              && (r.work == l.work || r.work == GiveUpFrom(l.work, 0))
    ensures DecodeTurn(cfg, o, l).Again? ==>
              var m := DecodeTurn(cfg, o, l).loop;
              && DecodeFrom(cfg, o, l) == DecodeFrom(cfg, o, m)
              && Heard(cfg, o, l, i) == heard + Heard(cfg, o, m, i) && l.i < |l.work.batch|
              && (if o.decodes(l.call) == 0
                  then m.work == ViewDone(cfg, o, l.call, l.i, Min(l.nBatch, |l.work.batch| - l.i), l.work)
                       && heard == HeardInTurn(cfg, o, l, i)
                  else m.work == l.work && heard == [])
  {
    heard := if l.i < |l.work.batch| && o.decodes(l.call) == 0 then HeardInTurn(cfg, o, l, i) else [];
    hide ViewDone, HeardInTurn, GiveUpFrom;
  }

  lemma {:induction false} DecodeTells(cfg: Config, o: Oracle, l: Loop, i: nat, before: seq<Reply>, task: Task,
                                       smps: seq<Sample>)
    requires Tells(cfg, l.work, i, before, task, smps) && l.nBatch >= 1
    ensures Tells(cfg, DecodeFrom(cfg, o, l).work, i, before, task, smps + Heard(cfg, o, l, i))
    decreases |l.work.batch| - l.i, l.nBatch
  {
    hide *;
    TellsShape(cfg, l.work, i, before, task, smps);
    var heard := DecodeUnfold(cfg, o, l, i);
    match DecodeTurn(cfg, o, l)
    case Stop(_) => GiveUpTells(cfg, l.work, 0, i, before, task, smps);
    case Again(m) =>
      if o.decodes(l.call) == 0 { ViewTells(cfg, o, l, i, before, task, smps); }
      assert heard == [] ==> smps + heard == smps;
      assert smps + heard + Heard(cfg, o, m, i) == smps + (heard + Heard(cfg, o, m, i));
      DecodeTells(cfg, o, m, i, before, task, smps + heard);
  }
}
