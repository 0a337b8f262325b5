/** `server_context::update_slots` as a function: what one call makes of the slots, the cells, the batch and
    the outside world, for any answers of the library. The class in ContextObject.dfy computes it in place;
    the lemmas about it are in BatchBuilding.dfy, DecodeLoop.dfy, Speculation.dfy and ServerRuns.dfy. */
module UpdateSlots {
  import opened Wrappers
  import opened KvCache
  import opened PromptReuse
  import opened Slots

  datatype Server = Server(slots: seq<Slot>, kv: seq<Kv>, cleanKv: bool)

  /** One token of the shared batch; its sequence is its slot. */
  datatype Entry = Entry(tok: Token, pos: nat, seqId: nat)

  /** The answers of the library in one call of `update_slots`: return codes of `llama_decode` by call, whether a
      partial removal of cells works (it does not for some models), sampled tokens by decode call and slot, and
      for a speculating slot the draft, whether it can be decoded, and how much of it is accepted. */
  datatype Oracle = Oracle(removes: nat -> bool, decodes: nat -> int, samples: (nat, nat) -> Sample,
                           drafts: (nat, nat) -> seq<Token>, verifies: (nat, nat) -> bool,
                           accepts: (nat, nat) -> nat, follows: (nat, nat, nat) -> Sample)

  /** Everything `update_slots` works on. `batched` is the slot the others in the batch must be compatible with. */
  datatype Work = Work(slots: seq<Slot>, kv: seq<Kv>, batch: seq<Entry>, logits: seq<bool>, batched: Option<nat>,
                       events: seq<Event>)

  predicate Shaped(w: Work) {
    && |w.kv| == |w.slots|
    && |w.logits| == |w.batch|
    && (w.batched.Some? ==> w.batched.value < |w.slots|)
  }

  function Put(w: Work, i: nat, s: Slot): (r: Work)
    requires Shaped(w) && i < |w.slots|
    ensures Shaped(r)
  {
    w.(slots := w.slots[i := s])
  }

  function Tell(w: Work, events: seq<Event>): (r: Work)
    ensures Shaped(w) ==> Shaped(r)
  {
    w.(events := w.events + events)
  }

  // ------------------------------------------------------------------ context shift

  function HalfOf(n: int): int { if n >= 0 then n / 2 else -(-n / 2) }

  function KeptTokens(cfg: Config, s: Slot): int { s.params.nKeep + if cfg.addBos then 1 else 0 }

  function Discarded(cfg: Config, s: Slot): int {
    if s.params.nDiscard != 0 then s.params.nDiscard else HalfOf(s.nPast - KeptTokens(cfg, s))
  }

  /** The cached tokens after the copy loop and the resize of lines 2744 to 2750. */
  function ShiftedCache(cache: seq<Token>, keep: int, discard: int): seq<Token> {
    if 0 <= keep && 0 <= discard && keep + discard <= |cache| then cache[..keep] + cache[keep + discard..]
    else if 0 <= discard <= |cache| then cache[..|cache| - discard]
    else cache
  }

  predicate NeedsShift(cfg: Config, s: Slot) { Processing(s) && s.nPast + 1 >= cfg.nCtx }

  /** A discard above `n_past` would make the source resize a vector to a wrapped-around size; the model stops
      at 0 there. */
  function ShiftedSlot(cfg: Config, s: Slot): Slot {
    var d := Discarded(cfg, s);
    s.(cache := if s.params.cachePrompt then ShiftedCache(s.cache, KeptTokens(cfg, s), d) else s.cache,
       nPast := if 0 <= s.nPast - d then s.nPast - d else 0, truncated := true)
  }

  function ShiftedKv(cfg: Config, s: Slot, kv: Kv): Kv {
    var keep, d := KeptTokens(cfg, s), Discarded(cfg, s);
    SeqAdd(SeqRm(kv, keep, keep + d), keep + d, s.nPast, -d)
  }

  function ShiftStep(cfg: Config, w: Work, i: nat): (r: Work)
    requires Shaped(w) && i < |w.slots|
    ensures Shaped(r) && |r.slots| == |w.slots|
  {
    var s := w.slots[i];
    if !NeedsShift(cfg, s) then w
    else if !cfg.ctxShift then Tell(Put(w, i, Release(s)), [Released(i), Sent(s.idTask, Error(ShiftDisabled))])
    else Put(w, i, ShiftedSlot(cfg, s)).(kv := w.kv[i := ShiftedKv(cfg, s, w.kv[i])])
  }

  function ShiftFrom(cfg: Config, w: Work, i: nat): (r: Work)
    requires Shaped(w) && i <= |w.slots|
    ensures Shaped(r) && |r.slots| == |w.slots|
    decreases |w.slots| - i
  {
    if i == |w.slots| then w else ShiftFrom(cfg, ShiftStep(cfg, w, i), i + 1)
  }

  // ------------------------------------------------------------------ building the batch

  /** Lines 2776 to 2780 and 2804 to 2810: the first slot sets the pace, later ones must be compatible. */
  predicate Joins(w: Work, i: nat)
    requires Shaped(w) && i < |w.slots|
  {
    w.batched.None? || CanBatch(w.slots[w.batched.value], w.slots[i])
  }

  function Joined(w: Work, i: nat): (r: Work)
    requires Shaped(w) && i < |w.slots|
    ensures Shaped(r)
  {
    if w.batched.None? then w.(batched := Some(i)) else w
  }

  /** A token of the slot goes into the batch. */
  function Grown(s: Slot, tok: Token): Slot {
    s.(nPast := s.nPast + 1, cache := if s.params.cachePrompt then s.cache + [tok] else s.cache)
  }

  /** `common_batch_add` for slot `i`, and what goes with it: `n_past` and the cached tokens. */
  function PushToken(w: Work, i: nat, tok: Token, logit: bool): (r: Work)
    requires Shaped(w) && i < |w.slots|
    ensures Shaped(r)
  {
    var s := w.slots[i];
    w.(slots := w.slots[i := Grown(s, tok)],
       batch := w.batch + [Entry(tok, s.nPast, i)], logits := w.logits + [logit])
  }

  function SampledStep(w: Work, i: nat): (r: Work)
    requires Shaped(w) && i < |w.slots|
    ensures Shaped(r) && |r.slots| == |w.slots|
  {
    var s := w.slots[i];
    if s.phase != Generating || !Joins(w, i) then w
    else PushToken(Put(Joined(w, i), i, s.(iBatch := |w.batch|)), i, s.sampled, true)
  }

  function SampledFrom(w: Work, i: nat): (r: Work)
    requires Shaped(w) && i <= |w.slots|
    ensures Shaped(r) && |r.slots| == |w.slots|
    decreases |w.slots| - i
  {
    if i == |w.slots| then w else SampledFrom(SampledStep(w, i), i + 1)
  }

  /** What becomes of a slot when its prompt is first looked at. */
  datatype Opening = Refused(slot: Slot, reply: Reply) | Opened(slot: Slot, kv: Kv)

  /** Line 2967: at least one token must be evaluated. */
  function LeaveOne(nPast: nat, nPrompt: nat): nat {
    if nPast == nPrompt && nPast > 0 then nPast - 1 else nPast
  }

  /** Lines 2823 to 2825. */
  function BegunPrompt(s: Slot): Slot { s.(nPast := 0, nPromptTokens := |s.prompt|, phase := ProcessingPrompt) }

  /** The answer a prompt gets that cannot be taken: lines 2843 to 2874. */
  function Refusal(cfg: Config, s: Slot): Option<Reply> {
    if s.prompt == [] then Some(FinalReply(s))
    else if NonCausal(s) then
      if s.nPromptTokens > cfg.nUbatch then Some(Error(BatchTooSmall))
      else if s.nPromptTokens > cfg.nCtx then Some(Error(ContextTooSmall))
      else None
    else if !cfg.ctxShift && s.nPromptTokens >= cfg.nCtx then Some(Error(ContextExceeded))
    else None
  }

  /** The prompt fitted to the window: lines 2876 to 2912. */
  function Fitted(cfg: Config, s: Slot): Slot {
    var keep := ClampKeep(s.params.nKeep, s.nPromptTokens, cfg.nCtx);
    var k := s.(params := s.params.(nKeep := keep));
    if |s.prompt| < cfg.nCtx then k else
    var prompt := Truncated(k.prompt, keep, cfg.nCtx);
    k.(prompt := prompt, nPromptTokens := |prompt|, truncated := true)
  }

  /** A prompt that is taken: lines 2876 to 2976. */
  function TakenPrompt(cfg: Config, s: Slot, kv: Kv): Opening {
    if NonCausal(s) then Opened(s, kv) else
    var t := Fitted(cfg, s);
    if !t.params.cachePrompt then Opened(t, kv) else
    var r := Reused(t.cache, kv, t.prompt, cfg.nCacheReuse);
    Opened(t.(cache := r.cache, nPast := LeaveOne(r.nPast, t.nPromptTokens)), r.kv)
  }

  /** Lines 2819 to 2978, for a slot that was just started. */
  function OpenPrompt(cfg: Config, slot: Slot, kv: Kv): Opening {
    var s := BegunPrompt(slot);
    var why := Refusal(cfg, s);
    if why.Some? then Refused(Release(s), why.value) else TakenPrompt(cfg, s, kv)
  }

  /** `std::vector::resize`: cut, or pad with zeros. */
  function Resized(cache: seq<Token>, n: nat): (r: seq<Token>)
    ensures |r| == n
  {
    if n <= |cache| then cache[..n] else cache + seq(n - |cache|, _ => 0)
  }

  /** Lines 2989 to 3001: keep only the part that is common with the prompt. */
  function Trimmed(w: Work, i: nat, removed: bool): (r: Work)
    requires Shaped(w) && i < |w.slots|
    ensures Shaped(r)
  {
    var s := w.slots[i];
    var n := if removed then s.nPast else 0;
    Put(w, i, s.(nPast := n, cache := Resized(s.cache, n)))
      .(kv := w.kv[i := if removed then SeqRm(w.kv[i], n, -1) else map[]])
  }

  /** The slot still has prompt tokens that fit into the batch. */
  predicate Feeds(cfg: Config, w: Work, s: Slot) {
    s.nPast < s.nPromptTokens && s.nPast < |s.prompt| && |w.batch| < cfg.nBatch
  }

  /** The loop of lines 3004 to 3017. */
  function AddTokens(cfg: Config, w: Work, i: nat): (r: Work)
    requires Shaped(w) && i < |w.slots|
    ensures Shaped(r) && |r.slots| == |w.slots|
    decreases cfg.nBatch - |w.batch|
  {
    var s := w.slots[i];
    if Feeds(cfg, w, s)
    then AddTokens(cfg, PushToken(w, i, s.prompt[s.nPast], s.kind == Embedding && cfg.noPooling), i)
    else w
  }

  /** Lines 3023 to 3041. */
  function PromptDone(w: Work, i: nat): (r: Work)
    requires Shaped(w) && i < |w.slots|
    ensures Shaped(r) && |r.slots| == |w.slots|
  {
    var s := w.slots[i];
    if s.nPast != s.nPromptTokens || w.batch == [] then w
    else Put(w, i, s.(phase := DonePrompt, nDecoded := 0, iBatch := |w.batch| - 1))
           .(logits := w.logits[|w.batch| - 1 := true])
  }

  /** One turn of the prompt loop; `full` says that it ends with the check for a full batch, which a turn left
      by `continue` does not reach. */
  datatype Turn = Turn(work: Work, full: bool)

  predicate HasPrompt(s: Slot) { s.phase == ProcessingPrompt || s.phase == Started }

  function IngestTurn(cfg: Config, o: Oracle, w: Work, i: nat): (t: Turn)
    requires Shaped(w) && i < |w.slots|
    ensures Shaped(t.work) && |t.work.slots| == |w.slots|
  {
    var s := w.slots[i];
    if NonCausal(s) && |w.batch| + s.nPromptTokens > cfg.nBatch then Turn(w, false)
    else Turn(PromptDone(AddTokens(cfg, Trimmed(w, i, o.removes(i)), i), i), true)
  }

  function PromptTurn(cfg: Config, o: Oracle, w: Work, i: nat): (t: Turn)
    requires Shaped(w) && i < |w.slots|
    ensures Shaped(t.work) && |t.work.slots| == |w.slots|
  {
    var s := w.slots[i];
    if Processing(s) && !Joins(w, i) then Turn(w, false) else
    var j := if Processing(s) then Joined(w, i) else w;
    if !HasPrompt(s) then Turn(j, true)
    else if s.phase == ProcessingPrompt then IngestTurn(cfg, o, j, i)
    else match OpenPrompt(cfg, s, w.kv[i])
      case Refused(t, reply) => Turn(Tell(Put(j, i, t), [Released(i), Sent(t.idTask, reply)]), false)
      case Opened(t, kv) => IngestTurn(cfg, o, Put(j, i, t).(kv := j.kv[i := kv]), i)
  }

  function PromptsFrom(cfg: Config, o: Oracle, w: Work, i: nat): (r: Work)
    requires Shaped(w) && i <= |w.slots|
    ensures Shaped(r) && |r.slots| == |w.slots|
    decreases |w.slots| - i
  {
    if i == |w.slots| then w else
    var t := PromptTurn(cfg, o, w, i);
    if t.full && |t.work.batch| >= cfg.nBatch then t.work else PromptsFrom(cfg, o, t.work, i + 1)
  }

  /** Either the loop ends here, or it goes on with the next slot. */
  lemma PromptsUnfold(cfg: Config, o: Oracle, w: Work, i: nat) returns (next: Work, full: bool)
    requires Shaped(w) && i < |w.slots|
    ensures var t := PromptTurn(cfg, o, w, i); next == t.work && full == (t.full && |t.work.batch| >= cfg.nBatch)
    ensures PromptsFrom(cfg, o, w, i) == if full then next else PromptsFrom(cfg, o, next, i + 1)
  {
    var t := PromptTurn(cfg, o, w, i);
    next, full := t.work, t.full && |t.work.batch| >= cfg.nBatch;
  }

  lemma PromptsStop(cfg: Config, o: Oracle, w: Work)
    requires Shaped(w)
    ensures PromptsFrom(cfg, o, w, |w.slots|) == w
  {
  }

  /** What every turn keeps holds at the end of the loop. */
  lemma {:induction false} PromptsKeep(cfg: Config, o: Oracle, w: Work, i: nat, r: Work, inv: (Work, nat) -> bool)
      returns (end: nat)
    requires Shaped(w) && i <= |w.slots| && inv(w, i) && r == PromptsFrom(cfg, o, w, i)
    requires forall v: Work, k: nat ::
               inv(v, k) && Shaped(v) && k < |v.slots| ==> inv(PromptTurn(cfg, o, v, k).work, k + 1)
    ensures inv(r, end) && i <= end && (i < |w.slots| ==> i < end)
    decreases |w.slots| - i
  {
    PromptsStop(cfg, o, w);
    hide PromptsFrom, PromptTurn;
    end := i;
    if i < |w.slots| {
      var next, full := PromptsUnfold(cfg, o, w, i);
      end := i + 1;
      if !full { end := PromptsKeep(cfg, o, next, i + 1, r, inv); }
    }
  }

  function Prompts(cfg: Config, o: Oracle, w: Work): (r: Work)
    requires Shaped(w)
    ensures Shaped(r) && |r.slots| == |w.slots|
  {
    if cfg.contBatching || w.batch == [] then PromptsFrom(cfg, o, w, 0) else w
  }

  /** Context shifts, then sampled tokens, then prompts: lines 2721 to 3048. */
  function BuiltFrom(cfg: Config, o: Oracle, w: Work): (r: Work)
    requires Shaped(w)
    ensures Shaped(r) && |r.slots| == |w.slots|
  {
    Prompts(cfg, o, SampledFrom(ShiftFrom(cfg, w, 0).(batch := [], logits := [], batched := None), 0))
  }

  // ------------------------------------------------------------------ decoding

  function Filled(kv: Kv, e: Entry, effect: Effect): Kv { kv[e.pos := Cell(e.tok, effect)] }

  /** `llama_decode` of the entries `[from, to)`, when it succeeds. */
  function DecodedCells(kv: seq<Kv>, batch: seq<Entry>, from: nat, to: nat, effect: Effect): (r: seq<Kv>)
    requires from <= to <= |batch|
    ensures |r| == |kv|
    decreases |batch| - from
  {
    if from == to then kv else
    var e := batch[from];
    DecodedCells(if e.seqId < |kv| then kv[e.seqId := Filled(kv[e.seqId], e, effect)] else kv, batch, from + 1, to,
      effect)
  }

  function InForce(w: Work): Effect
    requires Shaped(w)
  {
    if w.batched.Some? then Effective(w.slots[w.batched.value].lora) else []
  }

  /** After `process_token`: the slot goes on, or it is released and its task is answered. */
  function Concluded(w: Work, i: nat, p: Processed): (r: Work)
    requires Shaped(w) && i < |w.slots|
    ensures Shaped(r) && |r.slots| == |w.slots| && r.batch == w.batch
  {
    var told := Tell(w, PartialEvents(p.slot, p.out));
    if p.slot.text.hasNext then Put(told, i, p.slot)
    else Tell(Put(told, i, Release(p.slot)), [Released(i), Sent(p.slot.idTask, FinalReply(p.slot))])
  }

  /** A slot whose token is sampled: lines 3127 to 3141. */
  function Counted(s: Slot): Slot { s.(phase := Generating, iBatch := -1, nDecoded := s.nDecoded + 1) }

  /** Lines 3127 to 3164. */
  function DrawToken(cfg: Config, w: Work, i: nat, index: int, smp: Sample): (r: Work)
    requires Shaped(w) && i < |w.slots|
    ensures Shaped(r) && |r.slots| == |w.slots| && r.batch == w.batch
  {
    Concluded(Tell(w, [Sampled(i, index)]), i, ProcessToken(cfg, Counted(w.slots[i]), smp))
  }

  /** The slot is to be sampled, or its embedding or score to be sent. */
  predicate IsReady(s: Slot) { (s.phase == DonePrompt || s.phase == Generating) && s.iBatch != -1 }

  /** Lines 3113 to 3125: embeddings or a score are read and sent, then the slot is released. */
  function EarlyEvents(s: Slot, i: nat): seq<Event> {
    [Read(i), Sent(s.idTask, if s.kind == Embedding then Embeddings else Score), Released(i)]
  }

  predicate InView(s: Slot, start: nat, count: nat) { start <= s.iBatch < start + count }

  /** Lines 3107 to 3165, for the view `[start, start + count)`. */
  function HandleStep(cfg: Config, o: Oracle, call: nat, start: nat, count: nat, w: Work, i: nat): (r: Work)
    requires Shaped(w) && i < |w.slots|
    ensures Shaped(r) && |r.slots| == |w.slots| && r.batch == w.batch
  {
    var s := w.slots[i];
    if !InView(s, start, count) then w
    else if s.phase == DonePrompt && NonCausal(s) then Tell(Put(w, i, Release(s).(iBatch := -1)), EarlyEvents(s, i))
    else if s.phase != DonePrompt && s.phase != Generating then w
    else DrawToken(cfg, w, i, s.iBatch - start, o.samples(call, i))
  }

  // `HandleStep`, case by case.

  lemma QuietStep(cfg: Config, o: Oracle, call: nat, start: nat, count: nat, w: Work, i: nat)
    requires Shaped(w) && i < |w.slots|
    requires !InView(w.slots[i], start, count) || (w.slots[i].phase != DonePrompt && w.slots[i].phase != Generating)
    ensures HandleStep(cfg, o, call, start, count, w, i) == w
  {
  }

  lemma EarlyStep(cfg: Config, o: Oracle, call: nat, start: nat, count: nat, w: Work, i: nat)
    requires Shaped(w) && i < |w.slots| && InView(w.slots[i], start, count) && w.slots[i].phase == DonePrompt
             && NonCausal(w.slots[i])
    ensures var s, r := w.slots[i], HandleStep(cfg, o, call, start, count, w, i);
            && r.slots == w.slots[i := Release(s).(iBatch := -1)]
            && r.events == w.events + EarlyEvents(s, i)
  {
  }

  lemma DrawnStep(cfg: Config, o: Oracle, call: nat, start: nat, count: nat, w: Work, i: nat)
    requires Shaped(w) && i < |w.slots| && InView(w.slots[i], start, count)
    requires w.slots[i].phase == Generating || (w.slots[i].phase == DonePrompt && !NonCausal(w.slots[i]))
    ensures HandleStep(cfg, o, call, start, count, w, i)
            == DrawToken(cfg, w, i, w.slots[i].iBatch - start, o.samples(call, i))
  {
  }

  function HandleFrom(cfg: Config, o: Oracle, call: nat, start: nat, count: nat, w: Work, i: nat): (r: Work)
    requires Shaped(w) && i <= |w.slots|
    ensures Shaped(r) && |r.slots| == |w.slots| && r.batch == w.batch
    decreases |w.slots| - i
  {
    if i == |w.slots| then w
    else HandleFrom(cfg, o, call, start, count, HandleStep(cfg, o, call, start, count, w, i), i + 1)
  }

  // ------------------------------------------------------------------ speculation

  /** Lines 3178 to 3186. */
  function DraftMax(cfg: Config, s: Slot): int {
    var room := Min(s.params.specMax, cfg.nCtx - s.nPast - 2);
    if s.nRemaining > 0 then Min(room, s.nRemaining - 1) else room
  }

  function Taken<T>(a: seq<T>, n: nat): (r: seq<T>)
    ensures |r| <= n && |r| <= |a|
  {
    if n <= |a| then a[..n] else a
  }

  /** `common_speculative_gen_draft`: at most as long as asked. */
  function Draft(cfg: Config, o: Oracle, call: nat, s: Slot, i: nat): seq<Token> {
    if DraftMax(cfg, s) >= 0 then Taken(o.drafts(call, i), DraftMax(cfg, s)) else []
  }

  /** `common_sampler_sample_and_accept_n`: the accepted beginning of the draft and one token of its own. */
  function AcceptedIds(o: Oracle, call: nat, i: nat, draft: seq<Token>): (ids: seq<Sample>)
    ensures 1 <= |ids| <= |draft| + 1
    ensures forall j :: 0 <= j < |ids| - 1 ==> ids[j].tok == draft[j]
  {
    var n := if o.accepts(call, i) <= |draft| then o.accepts(call, i) else |draft|;
    seq(n + 1, j requires 0 <= j <= n =>
      if j < n then o.follows(call, i, j).(tok := draft[j]) else o.follows(call, i, j))
  }

  function Toks(ids: seq<Sample>): (r: seq<Token>)
    ensures |r| == |ids| && forall j :: 0 <= j < |ids| ==> r[j] == ids[j].tok
  {
    if ids == [] then [] else Toks(ids[..|ids| - 1]) + [ids[|ids| - 1].tok]
  }

  /** The cells after decoding `toks` from position `pos` on. */
  function PlacedCells(kv: Kv, pos: nat, toks: seq<Token>, effect: Effect): Kv
    decreases |toks|
  {
    if toks == [] then kv else PlacedCells(kv[pos := Cell(toks[0], effect)], pos + 1, toks[1..], effect)
  }

  /** Lines 3232 to 3253 from the `j`-th accepted token on: the slot is released at the first stop. */
  function EmitFrom(cfg: Config, w: Work, i: nat, ids: seq<Sample>, j: nat): (r: Work)
    requires Shaped(w) && i < |w.slots| && j <= |ids|
    ensures Shaped(r) && |r.slots| == |w.slots| && r.batch == w.batch
    decreases |ids| - j
  {
    if j == |ids| then w else
    var p := ProcessToken(cfg, w.slots[i], ids[j]);
    if p.slot.text.hasNext then EmitFrom(cfg, Concluded(w, i, p), i, ids, j + 1) else Concluded(w, i, p)
  }

  predicate Speculates(cfg: Config, o: Oracle, call: nat, s: Slot, i: nat) {
    && s.phase == Generating && CanSpeculate(cfg, s)
    && DraftMax(cfg, s) >= s.params.specMin
    && |Draft(cfg, o, call, s, i)| >= s.params.specMin
  }

  /** The slot after its draft was decoded and partly accepted, before the tokens are told. */
  function Advanced(s: Slot, ids: seq<Sample>): Slot
    requires ids != []
  {
    s.(nPast := s.nPast + |ids|, nDecoded := s.nDecoded + |ids|,
      cache := s.cache + [s.sampled] + Toks(ids)[..|ids| - 1])
  }

  /** The cells after the draft was decoded and what was not accepted removed. Whether the draft could be decoded,
      `ok`, is not looked at in the source. */
  function AdvancedKv(s: Slot, kv: Kv, draft: seq<Token>, ids: seq<Sample>, effect: Effect, ok: bool): Kv {
    SeqRm(if ok then PlacedCells(kv, s.nPast, [s.sampled] + draft, effect) else kv, s.nPast + |ids|, -1)
  }

  function SpeculateStep(cfg: Config, o: Oracle, call: nat, w: Work, i: nat): (r: Work)
    requires Shaped(w) && i < |w.slots|
    ensures Shaped(r) && |r.slots| == |w.slots| && r.batch == w.batch
  {
    var s := w.slots[i];
    if !Speculates(cfg, o, call, s, i) then w else
    var draft := Draft(cfg, o, call, s, i);
    var ids := AcceptedIds(o, call, i, draft);
    var kv := AdvancedKv(s, w.kv[i], draft, ids, InForce(w), o.verifies(call, i));
    EmitFrom(cfg, Put(w, i, Advanced(s, ids)).(kv := w.kv[i := kv]), i, ids, 0)
  }

  function SpeculateFrom(cfg: Config, o: Oracle, call: nat, w: Work, i: nat): (r: Work)
    requires Shaped(w) && i <= |w.slots|
    ensures Shaped(r) && |r.slots| == |w.slots| && r.batch == w.batch
    decreases |w.slots| - i
  {
    if i == |w.slots| then w else SpeculateFrom(cfg, o, call, SpeculateStep(cfg, o, call, w, i), i + 1)
  }

  // ------------------------------------------------------------------ the decode loop

  function GiveUpOne(w: Work, i: nat): (r: Work)
    requires Shaped(w) && i < |w.slots|
    ensures Shaped(r) && |r.slots| == |w.slots| && r.batch == w.batch
  {
    var s := w.slots[i];
    Tell(Put(w, i, Release(s)), (if Processing(s) then [Released(i)] else []) + [Sent(s.idTask, Error(KvFull))])
  }

  /** Lines 3083 to 3088: every slot is released and told, busy or not. */
  function GiveUpFrom(w: Work, i: nat): (r: Work)
    requires Shaped(w) && i <= |w.slots|
    ensures Shaped(r) && |r.slots| == |w.slots| && r.batch == w.batch
    decreases |w.slots| - i
  {
    if i == |w.slots| then w else GiveUpFrom(GiveUpOne(w, i), i + 1)
  }

  /** The work when a view is decoded and its slots are not handled yet. */
  function ViewDecoded(w: Work, start: nat, count: nat): (d: Work)
    requires Shaped(w) && start + count <= |w.batch|
    ensures Shaped(d) && |d.slots| == |w.slots| && d.batch == w.batch
  {
    Tell(w.(kv := DecodedCells(w.kv, w.batch, start, start + count, InForce(w))), [Decoded(start, count)])
  }

  /** A view was decoded: cells are filled, ready slots handled, and drafts tried (without a draft model no slot
      can speculate, so that loop does nothing). */
  function ViewDone(cfg: Config, o: Oracle, call: nat, start: nat, count: nat, w: Work): (r: Work)
    requires Shaped(w) && start + count <= |w.batch|
    ensures Shaped(r) && |r.slots| == |w.slots| && r.batch == w.batch
  {
    var h := HandleFrom(cfg, o, call, start, count, ViewDecoded(w, start, count), 0);
    if cfg.hasDraft then SpeculateFrom(cfg, o, call, h, 0) else h
  }

  /** How the loop ended, and at which entry. */
  datatype Outcome = Outcome(work: Work, fatal: bool, at: nat)

  /** The variables of the loop: the entry it is at (the source's `i` overshoots the end by the missing part of a
      short last view), the view size, and the number of calls made. */
  datatype Loop = Loop(work: Work, i: nat, nBatch: nat, call: nat)
  datatype Decided = Stop(outcome: Outcome) | Again(loop: Loop)

  /** One turn: a view is decoded, or tried again at half the size, or the loop gives up. */
  function DecodeTurn(cfg: Config, o: Oracle, l: Loop): (n: Decided)
    requires Shaped(l.work) && l.nBatch >= 1
    ensures n.Stop? ==> var r := n.outcome.work; Shaped(r) && |r.slots| == |l.work.slots| && r.batch == l.work.batch
    ensures n.Again? ==> var m := n.loop;
                         && l.i < |l.work.batch| && Shaped(m.work) && m.nBatch >= 1
                         && |m.work.slots| == |l.work.slots| && m.work.batch == l.work.batch
                         && (l.i < m.i || (l.i == m.i && m.nBatch < l.nBatch))
  {
    var w := l.work;
    if l.i >= |w.batch| then Stop(Outcome(w, false, l.i)) else
    var count := Min(l.nBatch, |w.batch| - l.i);
    var ret := o.decodes(l.call);
    if ret != 0 then
      if l.nBatch == 1 || ret < 0 then Stop(Outcome(GiveUpFrom(w, 0), true, l.i))
      else Again(Loop(w, l.i, l.nBatch / 2, l.call + 1))
    else Again(Loop(ViewDone(cfg, o, l.call, l.i, count, w), l.i + count, l.nBatch, l.call + 1))
  }

  /** The loop of lines 3066 to 3256: it ends because entries are left behind or the view size shrinks. */
  function DecodeFrom(cfg: Config, o: Oracle, l: Loop): (r: Outcome)
    requires Shaped(l.work) && l.nBatch >= 1
    ensures Shaped(r.work) && |r.work.slots| == |l.work.slots| && r.work.batch == l.work.batch
    decreases |l.work.batch| - l.i, l.nBatch
  {
    match DecodeTurn(cfg, o, l)
    case Stop(outcome) => outcome
    case Again(m) => DecodeFrom(cfg, o, m)
  }

  // ------------------------------------------------------------------ the whole call

  predicate AllIdle(slots: seq<Slot>) { forall i :: 0 <= i < |slots| ==> !Processing(slots[i]) }

  predicate Valid(sv: Server) { |sv.kv| == |sv.slots| }

  function Begun(sv: Server): Work { Work(sv.slots, sv.kv, [], [], None, []) }

  function Emptied(kv: seq<Kv>): (r: seq<Kv>)
    ensures |r| == |kv| && forall i :: 0 <= i < |r| ==> r[i] == map[]
  {
    seq(|kv|, _ => map[])
  }

  /** The server after the call, what was told, and whether decoding failed for good. */
  datatype Updated = Updated(server: Server, events: seq<Event>, fatal: bool)

  function Update(cfg: Config, sv: Server, o: Oracle): (r: Updated)
    requires Valid(sv)
    ensures Valid(r.server) && |r.server.slots| == |sv.slots|
  {
    if AllIdle(sv.slots) then
      Updated(if sv.cleanKv then Server(sv.slots, Emptied(sv.kv), false) else sv, [], false)
    else
      var out := DecodeFrom(cfg, o, Loop(BuiltFrom(cfg, o, Begun(sv)), 0, cfg.nBatch, 0));
      Updated(Server(out.work.slots, out.work.kv, sv.cleanKv), out.work.events, out.fatal)
  }
}
