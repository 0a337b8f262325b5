/** A slot (`server_slot`), the tasks it runs, and the operations that touch one slot only. */
module Slots {
  import opened Wrappers
  import opened Utf8
  import opened TextStream
  import opened Indentation
  import opened KvCache

  datatype TaskKind = Completion | Infill | Embedding | Rerank
  datatype Phase = Idle | Started | ProcessingPrompt | DonePrompt | Generating

  /** `slot_params`; only the fields that steer the server. */
  datatype Params = Params(cachePrompt: bool, stream: bool, nKeep: int, nDiscard: nat, nPredict: int,
                           nIndent: int, stops: seq<Text>, specMax: nat, specMin: nat, lora: Lora)

  /** A completion, infill, embedding or rerank task. */
  datatype Task = Task(id: int, kind: TaskKind, prompt: seq<Token>, params: Params)

  /** `common_params` and the sizes the library reports. */
  datatype Settings = Settings(nCtx: nat, nBatch: nat, nUbatch: nat, nPredict: int, nCtxTrain: int, nCacheReuse: nat,
                               ctxShift: bool, contBatching: bool, addBos: bool, hasDraft: bool, noPooling: bool)

  type Config = c: Settings | c.nCtx >= 4 && 1 <= c.nUbatch <= c.nBatch
    witness Settings(4, 1, 1, -1, 1, 0, true, true, true, false, false)

  datatype Slot = Slot(idTask: int, kind: TaskKind, phase: Phase, params: Params,
                       prompt: seq<Token>, nPromptTokens: nat, nPast: nat, nDecoded: nat, nRemaining: int, iBatch: int,
                       cache: seq<Token>, lora: Lora, sampled: Token, truncated: bool, text: TextState)

  predicate NonCausal(s: Slot) { s.kind == Embedding || s.kind == Rerank }
  predicate Processing(s: Slot) { s.phase != Idle }
  predicate CanBatch(a: Slot, b: Slot) { NonCausal(a) == NonCausal(b) && LoraEqual(a.lora, b.lora) }
  predicate CanSpeculate(cfg: Config, s: Slot) { cfg.hasDraft && s.params.specMax > 0 && s.params.cachePrompt }

  // release, without its callback
  function Release(s: Slot): Slot { s.(phase := Idle) }

  // reset: `has_next_token` and `n_decoded` keep their values
  function Reset(s: Slot): Slot {
    s.(nPromptTokens := 0, text := START.(hasNext := s.text.hasNext), truncated := false, nPast := 0,
      kind := Completion)
  }

  /** `slot.params.n_predict` after the clamp of lines 1984 to 1989. */
  function ClampPredict(cfg: Config, nPredict: int): int {
    if cfg.nPredict > 0 && nPredict > cfg.nPredict then cfg.nPredict else nPredict
  }

  /** Parameters and adapters of a new task: cached tokens cannot be kept for other adapters. */
  function WithParams(cfg: Config, s: Slot, given: Params): Slot {
    var p := s.(params := given.(nPredict := ClampPredict(cfg, given.nPredict)));
    if LoraEqual(given.lora, s.lora) then p else p.(cache := [], lora := given.lora)
  }

  // launch_slot_with_task; `ok` is false when the grammar is rejected
  function Launch(cfg: Config, s: Slot, task: Task, ok: bool): Slot {
    var r := WithParams(cfg, Reset(s).(idTask := task.id, kind := task.kind, prompt := task.prompt), task.params);
    if ok then r.(phase := Started) else r
  }

  /** The first slot that runs or last ran the task. */
  function SlotOf(slots: seq<Slot>, task: int, i: nat): (r: nat)
    requires i <= |slots|
    ensures i <= r <= |slots| && (r < |slots| ==> slots[r].idTask == task)
    ensures forall k :: i <= k < r ==> slots[k].idTask != task
    decreases |slots| - i
  {
    if i == |slots| || slots[i].idTask == task then i else SlotOf(slots, task, i + 1)
  }

  // ------------------------------------------------------------------ what the server tells its clients

  datatype Why = BatchTooSmall | ContextTooSmall | ContextExceeded | ShiftDisabled | KvFull | BadGrammar

  /** The results a task can get. All but a partial one end the task. */
  datatype Reply =
    | Partial(content: Text) | Final(content: Text, stop: StopType, nDecoded: nat)
    | Embeddings | Score | Error(why: Why)

  /** What `update_slots` does that can be seen from outside the slots: calls of the library that decode a view,
      sample a token, and read the embeddings or the score of a slot from the view; releases (which move a deferred
      task to the queue), and results sent. */
  datatype Event =
    | Decoded(start: nat, count: nat)
    | Sampled(slot: nat, index: int)
    | Read(slot: nat)
    | Released(slot: nat)
    | Sent(task: int, reply: Reply)

  // ------------------------------------------------------------------ one sampled token

  /** What the sampler and the vocabulary say about a token; `late` is the verdict of the time limit. */
  datatype Sample = Sample(tok: Token, piece: Text, eog: bool, late: bool)

  // has_budget: the verdict and the new `n_remaining`
  function Budget(cfg: Config, s: Slot): (bool, int) {
    if s.params.nPredict == -1 && cfg.nPredict == -1 then (true, s.nRemaining) else
    var n := if s.params.nPredict != -1 then s.params.nPredict - s.nDecoded else cfg.nPredict - s.nDecoded;
    (n > 0, n)
  }

  /** The slot after `process_token`, and the content of the partial response if one is due. */
  datatype Processed = Processed(slot: Slot, out: Option<Text>)

  function BudgetChecked(cfg: Config, s: Slot): Slot {
    var asks := s.nDecoded > 0 && s.text.hasNext;
    var (enough, left) := Budget(cfg, s);
    s.(nRemaining := if asks then left else s.nRemaining,
       text := if asks && !enough then Stopped(s.text, Limit) else s.text)
  }

  function LimitsChecked(cfg: Config, s: Slot, smp: Sample, shown: Text): Slot {
    var t3 := LinesChecked(s.text, s.params.nIndent, smp.late, shown);
    var full := s.nPast >= cfg.nCtx;
    var t4 := if full then Stopped(t3, Limit) else t3;
    var t5 := if smp.eog then Stopped(t4, Eos) else t4;
    var endless := s.params.nPredict < 1 && cfg.nPredict < 1 && s.nPromptTokens + s.nDecoded >= cfg.nCtxTrain;
    s.(truncated := s.truncated || full || endless, text := if endless then Stopped(t5, Limit) else t5)
  }

  // process_token
  function ProcessToken(cfg: Config, s: Slot, smp: Sample): Processed {
    var a := Accept(s.text, smp.piece, s.params.stops);
    var b := BudgetChecked(cfg, s.(sampled := smp.tok, text := a.text));
    Processed(LimitsChecked(cfg, b, smp, a.shown), if s.params.stream then a.out else None)
  }

  function PartialEvents(s: Slot, out: Option<Text>): seq<Event> {
    if out.Some? then [Sent(s.idTask, Partial(out.value))] else []
  }

  function FinalReply(s: Slot): Reply { Final(FinalContent(s.text, s.params.stream), s.text.stop, s.nDecoded) }

  /** The number of tokens after which a task stops whatever the sampler returns. */
  function Bound(cfg: Config, s: Slot): (b: int)
    ensures b >= 1
  {
    var n := if s.params.nPredict != -1 then s.params.nPredict
             else if cfg.nPredict != -1 then cfg.nPredict
             else cfg.nCtxTrain - s.nPromptTokens;
    if n < 1 then 1 else n
  }

  /** Everything `process_token` leaves alone. */
  predicate SameRun(s: Slot, t: Slot) {
    && t.idTask == s.idTask && t.kind == s.kind && t.params == s.params
    && t.prompt == s.prompt && t.nPromptTokens == s.nPromptTokens
    && t.nPast == s.nPast && t.cache == s.cache && t.lora == s.lora
  }

  /** A token that is let through has left the slot within its bound, and with a finite limit `n_remaining` is
      exactly what is left of it. */
  lemma ProcessTokenStops(cfg: Config, s: Slot, smp: Sample)
    requires s.nDecoded >= 1
    ensures var t := ProcessToken(cfg, s, smp).slot;
            && SameRun(s, t) && t.nDecoded == s.nDecoded && t.phase == s.phase && t.iBatch == s.iBatch
            && (t.text.hasNext ==>
                  && s.nDecoded < Bound(cfg, s)
                  && s.nPast < cfg.nCtx
                  && (s.params.nPredict != -1 || cfg.nPredict != -1 ==> t.nRemaining == Bound(cfg, s) - s.nDecoded))
  {
    var a := Accept(s.text, smp.piece, s.params.stops);
    var b := BudgetChecked(cfg, s.(sampled := smp.tok, text := a.text));
    LimitsOnlyStop(b.text, b.params.nIndent, smp.late, a.shown);
    hide Accept, LinesChecked;
  }
}
