/** The prompt half of building the batch: trimming, the token loop, and the loop over slots. */
module PromptLoop {
  import opened KvCache
  import opened Slots
  import opened UpdateSlots
  import opened ServerInvariant
  import opened BatchBuilding

  /** `v` is `w` except for slot `i`, its cells, the pace setter and what was told. */
  ghost predicate OnlySlot(w: Work, v: Work, i: nat) {
    && Shaped(w) && Shaped(v) && i < |w.slots| == |v.slots|
    && (forall k :: 0 <= k < |w.slots| && k != i ==> v.slots[k] == w.slots[k] && v.kv[k] == w.kv[k])
  }

  /** What a slot's turn leaves for the others. */
  ghost predicate OthersKept(cfg: Config, w: Work, v: Work, i: nat) {
    && OnlySlot(w, v, i)
    && (forall k :: 0 <= k < |w.slots| && k != i ==>
          && Pending(v.batch, k, 0) == Pending(w.batch, k, 0)
          && (ReadyOk(w.slots[k], w.batch, k) ==> ReadyOk(v.slots[k], v.batch, k)))
  }

  /** What a slot's turn, or a part of it, is to the batch: it stays sound, the other slots keep what they have,
      and if it grows it stays within `n_batch`. */
  ghost predicate TurnKept(cfg: Config, w: Work, r: Work, i: nat) {
    match r
    case Work(_, _, batch, _, _, _) =>
      BatchOk(cfg, r) && OthersKept(cfg, w, r, i) && (|batch| <= cfg.nBatch || batch == w.batch)
  }

  lemma TurnKeptAgain(cfg: Config, w: Work, v: Work, r: Work, i: nat)
    requires OthersKept(cfg, w, v, i) && v.batch == w.batch && TurnKept(cfg, v, r, i)
    ensures TurnKept(cfg, w, r, i)
  {
    OthersKeptAgain(cfg, w, v, r, i);
  }

  // ------------------------------------------------------------------ trim

  /** After the trim the cells are exactly the cached tokens, and these are the first `n_past` prompt tokens;
      also when the partial removal fails and everything is dropped. */
  lemma TrimmedIsExact(cfg: Config, w: Work, i: nat, removed: bool)
    requires Shaped(w) && i < |w.slots| && Trimmable(cfg, w.slots[i], w.kv[i])
    ensures var r := Trimmed(w, i, removed);
            && Exact(cfg, r.slots[i], r.kv[i], 0) && Feeding(cfg, r.slots[i])
            && r.slots[i].nPast < |r.slots[i].prompt|
            && r.slots[i].lora == w.slots[i].lora && r.slots[i].kind == w.slots[i].kind
  {
    var s, r := w.slots[i], Trimmed(w, i, removed);
    var t := r.slots[i];
    assert t.cache == s.cache[..t.nPast];
    assert t.cache[..t.nPast] == t.cache;
    if removed {
      assert Mirrors(r.kv[i], t.cache, Effective(s.lora));
    } else {
      assert t.cache == [] == s.prompt[..0];
    }
  }

  // ------------------------------------------------------------------ the token loop

  /** The batch is sound and slot `i` is taking in its prompt. */
  ghost predicate FeedingOk(cfg: Config, w: Work, i: nat) {
    && CellsBehind(cfg, w) && Compatible(w) && i < |w.slots|
    && w.batched.Some? && CanBatch(w.slots[w.batched.value], w.slots[i])
    && Exact(cfg, w.slots[i], w.kv[i], Pending(w.batch, i, 0))
    && Feeding(cfg, w.slots[i])
  }

  lemma PushFeeds(cfg: Config, w: Work, i: nat, logit: bool)
    requires FeedingOk(cfg, w, i) && w.slots[i].nPast < |w.slots[i].prompt|
    ensures FeedingOk(cfg, PushToken(w, i, w.slots[i].prompt[w.slots[i].nPast], logit), i)
    ensures OthersKept(cfg, w, PushToken(w, i, w.slots[i].prompt[w.slots[i].nPast], logit), i)
  {
    var s := w.slots[i];
    var tok := s.prompt[s.nPast];
    PushCells(cfg, w, i, tok, logit);
    PushCompatible(w, i, tok, logit);
    assert s.prompt[..s.nPast + 1] == s.prompt[..s.nPast] + [tok];
    var r := PushToken(w, i, tok, logit);
    forall k | 0 <= k < |w.slots| && k != i
      ensures Pending(r.batch, k, 0) == Pending(w.batch, k, 0)
      ensures ReadyOk(w.slots[k], w.batch, k) ==> ReadyOk(r.slots[k], r.batch, k)
    {
      PendingAppend(w.batch, Entry(tok, s.nPast, i), k, 0);
      if ReadyOk(w.slots[k], w.batch, k) { PushReady(w, i, tok, logit, k); }
    }
  }

  /** `r` is `w` after some turns of the loop: each added an entry of slot `i`. */
  ghost predicate Fed(cfg: Config, w: Work, r: Work, i: nat) {
    && FeedingOk(cfg, r, i) && OthersKept(cfg, w, r, i)
    && r.batched == w.batched && r.events == w.events
    && r.slots[i].prompt == w.slots[i].prompt && r.slots[i].kind == w.slots[i].kind
    && w.batch <= r.batch && r.slots[i].nPast == w.slots[i].nPast + |r.batch| - |w.batch|
    && (|r.batch| > |w.batch| ==> |r.batch| <= cfg.nBatch && r.batch[|r.batch| - 1].seqId == i)
  }

  lemma FedOnce(cfg: Config, w: Work, i: nat, logit: bool)
    requires FeedingOk(cfg, w, i) && w.slots[i].nPast < |w.slots[i].prompt| && |w.batch| < cfg.nBatch
    ensures Fed(cfg, w, PushToken(w, i, w.slots[i].prompt[w.slots[i].nPast], logit), i)
  {
    PushFeeds(cfg, w, i, logit);
  }

  lemma FedAgain(cfg: Config, w: Work, v: Work, r: Work, i: nat)
    requires FeedingOk(cfg, w, i) && Fed(cfg, w, v, i) && Fed(cfg, v, r, i)
    ensures Fed(cfg, w, r, i)
  {
  }

  /** The loop stops with the whole prompt in the batch or with a full batch. */
  lemma {:induction false} AddTokensOk(cfg: Config, w: Work, i: nat)
    requires FeedingOk(cfg, w, i)
    ensures Fed(cfg, w, AddTokens(cfg, w, i), i)
    ensures var r := AddTokens(cfg, w, i); r.slots[i].nPast == |r.slots[i].prompt| || |r.batch| >= cfg.nBatch
    decreases cfg.nBatch - |w.batch|
  {
    var s := w.slots[i];
    if s.nPast < s.nPromptTokens && s.nPast < |s.prompt| && |w.batch| < cfg.nBatch {
      var logit := s.kind == Embedding && cfg.noPooling;
      var v := PushToken(w, i, s.prompt[s.nPast], logit);
      FedOnce(cfg, w, i, logit);
      AddTokensOk(cfg, v, i);
      FedAgain(cfg, w, v, AddTokens(cfg, v, i), i);
    }
  }

  // ------------------------------------------------------------------ one turn

  /** The batch is sound; slots not yet reached are as they were. */
  ghost predicate PromptsOk(cfg: Config, w: Work, i: nat) {
    match w
    case Work(slots, _, _, _, _, _) =>
      BatchOk(cfg, w) && forall k :: i <= k < |slots| && HasPrompt(slots[k]) ==> Untouched(cfg, w, k)
  }

  lemma PromptDoneCells(cfg: Config, w: Work, i: nat)
    requires FeedingOk(cfg, w, i) && w.batch != []
    ensures CellsBehind(cfg, PromptDone(w, i)) && Compatible(PromptDone(w, i))
  {
    var s, r := w.slots[i], PromptDone(w, i);
    if s.nPast == s.nPromptTokens {
      var p := Put(w, i, s.(phase := DonePrompt, nDecoded := 0, iBatch := |w.batch| - 1));
      PutCells(cfg, w, i, p.slots[i]);
      forall j | 0 <= j < |r.batch| ensures EntryOk(r.slots, r.batch, j) { assert EntryOk(p.slots, p.batch, j); }
      forall k | 0 <= k < |r.slots| ensures Behind(cfg, r.slots[k], r.kv[k], Pending(r.batch, k, 0)) {
        assert Behind(cfg, p.slots[k], p.kv[k], Pending(p.batch, k, 0));
      }
    }
  }

  lemma PromptDoneOk(cfg: Config, w: Work, i: nat)
    requires FeedingOk(cfg, w, i) && w.slots[i].prompt != []
    requires NonCausal(w.slots[i]) ==> w.slots[i].nPast == |w.slots[i].prompt|
    requires w.slots[i].nPast == |w.slots[i].prompt| ==> w.batch != [] && w.batch[|w.batch| - 1].seqId == i
    requires forall k :: 0 <= k < |w.slots| && k != i ==> PhaseOk(cfg, w.slots[k]) && ReadyOk(w.slots[k], w.batch, k)
    ensures BatchOk(cfg, PromptDone(w, i)) && OthersKept(cfg, w, PromptDone(w, i), i)
  {
    var s := w.slots[i];
    if s.nPast == s.nPromptTokens {
      PromptDoneCells(cfg, w, i);
      assert Pending(w.batch, i, |w.batch|) == 0;
      assert s.prompt[..s.nPast] == s.prompt;
    }
  }

  /** `a` comes out of the token loop that `t` went into: the whole prompt is in, if it is all or nothing. */
  lemma WholePromptIsIn(cfg: Config, t: Work, a: Work, i: nat)
    requires FeedingOk(cfg, t, i) && Fed(cfg, t, a, i)
    requires a.slots[i].nPast == |a.slots[i].prompt| || |a.batch| >= cfg.nBatch
    requires NonCausal(t.slots[i]) ==> |t.batch| + t.slots[i].nPromptTokens <= cfg.nBatch && t.slots[i].nPast == 0
    ensures NonCausal(a.slots[i]) ==> a.slots[i].nPast == |a.slots[i].prompt|
  {
  }

  lemma OthersKeptAgain(cfg: Config, w: Work, v: Work, r: Work, i: nat)
    requires OthersKept(cfg, w, v, i) && OthersKept(cfg, v, r, i)
    ensures OthersKept(cfg, w, r, i)
  {
  }

  lemma OthersStaySound(cfg: Config, start: Work, a: Work, i: nat)
    requires BatchOk(cfg, start) && OthersKept(cfg, start, a, i)
    ensures forall k :: 0 <= k < |a.slots| && k != i ==> PhaseOk(cfg, a.slots[k]) && ReadyOk(a.slots[k], a.batch, k)
  {
  }

  /** `t` is trimmed, `a` comes out of the token loop: what this is to the start of the turn. */
  ghost predicate TookIn(cfg: Config, start: Work, a: Work, i: nat) {
    && FeedingOk(cfg, a, i) && OthersKept(cfg, start, a, i)
    && a.slots[i].prompt != []
    && (NonCausal(a.slots[i]) ==> a.slots[i].nPast == |a.slots[i].prompt|)
    && (a.slots[i].nPast == |a.slots[i].prompt| ==> a.batch != [] && a.batch[|a.batch| - 1].seqId == i)
    && (|a.batch| <= cfg.nBatch || a.batch == start.batch)
  }

  lemma FedFromStart(cfg: Config, start: Work, t: Work, a: Work, i: nat)
    requires FeedingOk(cfg, t, i) && OthersKept(cfg, start, t, i) && t.batch == start.batch
             && t.slots[i].nPast < |t.slots[i].prompt|
    requires NonCausal(t.slots[i]) ==> |t.batch| + t.slots[i].nPromptTokens <= cfg.nBatch && t.slots[i].nPast == 0
    requires Fed(cfg, t, a, i) && (a.slots[i].nPast == |a.slots[i].prompt| || |a.batch| >= cfg.nBatch)
    ensures TookIn(cfg, start, a, i)
  {
    WholePromptIsIn(cfg, t, a, i);
    OthersKeptAgain(cfg, start, t, a, i);
  }

  /** And the rest of the turn keeps the batch sound. */
  lemma TakeInOk(cfg: Config, start: Work, a: Work, i: nat)
    requires BatchOk(cfg, start) && TookIn(cfg, start, a, i)
    ensures TurnKept(cfg, start, PromptDone(a, i), i)
  {
    OthersStaySound(cfg, start, a, i);
    PromptDoneOk(cfg, a, i);
    OthersKeptAgain(cfg, start, a, PromptDone(a, i), i);
  }

  /** Slot `i`, which has no entry, gets new cached tokens and cells. */
  lemma ReplacedFeeds(cfg: Config, start: Work, t: Work, i: nat)
    requires BatchOk(cfg, start) && i < |start.slots| == |t.slots| && Shaped(t) && Pending(start.batch, i, 0) == 0
    requires t.slots == start.slots[i := t.slots[i]] && t.kv == start.kv[i := t.kv[i]] && t.batch == start.batch
    requires t.batched.Some? && t.batched == Joined(start, i).batched && CanBatch(t.slots[t.batched.value], t.slots[i])
    requires Exact(cfg, t.slots[i], t.kv[i], 0) && Feeding(cfg, t.slots[i])
    requires t.slots[i].kind == start.slots[i].kind && t.slots[i].lora == start.slots[i].lora
    ensures FeedingOk(cfg, t, i) && OthersKept(cfg, start, t, i)
  {
    var p := Put(start, i, t.slots[i]).(kv := start.kv[i := t.kv[i]]);
    ReplaceCells(cfg, start, i, t.slots[i], t.kv[i]);
    assert CellsBehind(cfg, t) by {
      forall j | 0 <= j < |t.batch| ensures EntryOk(t.slots, t.batch, j) { assert EntryOk(p.slots, p.batch, j); }
      forall k | 0 <= k < |t.slots| ensures Behind(cfg, t.slots[k], t.kv[k], Pending(t.batch, k, 0)) {
        assert Behind(cfg, p.slots[k], p.kv[k], Pending(p.batch, k, 0));
      }
    }
    NoEntries(t.batch, i);
  }

  lemma TrimmedFeeds(cfg: Config, w: Work, i: nat, removed: bool, start: Work)
    requires i < |w.slots| && BatchOk(cfg, start) && OnlySlot(start, w, i) && w.batch == start.batch
    requires w.batched.Some? && w.batched == Joined(start, i).batched && CanBatch(w.slots[w.batched.value], w.slots[i])
    requires Pending(w.batch, i, 0) == 0 && Trimmable(cfg, w.slots[i], w.kv[i])
    requires w.slots[i].kind == start.slots[i].kind && w.slots[i].lora == start.slots[i].lora
    ensures var t := Trimmed(w, i, removed);
            && FeedingOk(cfg, t, i) && t.slots[i].nPast < |t.slots[i].prompt|
            && OthersKept(cfg, start, t, i)
            && t.slots[i].kind == w.slots[i].kind && t.slots[i].prompt == w.slots[i].prompt
            && (t.slots[i].nPast == w.slots[i].nPast || t.slots[i].nPast == 0)
  {
    var t := Trimmed(w, i, removed);
    TrimmedIsExact(cfg, w, i, removed);
    assert t.slots == start.slots[i := t.slots[i]] && t.kv == start.kv[i := t.kv[i]];
    ReplacedFeeds(cfg, start, t, i);
  }

  lemma {:induction false} NoEntriesFrom(batch: seq<Entry>, i: nat, k: nat, j: nat)
    requires k <= j < |batch| && Pending(batch, i, k) == 0
    ensures batch[j].seqId != i
    decreases j - k
  {
    if k < j { NoEntriesFrom(batch, i, k + 1, j); }
  }

  lemma NoEntries(batch: seq<Entry>, i: nat)
    requires Pending(batch, i, 0) == 0
    ensures forall j :: 0 <= j < |batch| ==> batch[j].seqId != i
  {
    forall j | 0 <= j < |batch| ensures batch[j].seqId != i { NoEntriesFrom(batch, i, 0, j); }
  }

  lemma JoinedOk(cfg: Config, w: Work, i: nat)
    requires BatchOk(cfg, w) && i < |w.slots| && Joins(w, i)
    ensures BatchOk(cfg, Joined(w, i)) && OthersKept(cfg, w, Joined(w, i), i)
    ensures var j := Joined(w, i); j.batched.Some? && CanBatch(j.slots[j.batched.value], j.slots[i])
  {
  }

  /** A slot without entries may change what its cells do not depend on. */
  lemma PutOk(cfg: Config, w: Work, i: nat, t: Slot)
    requires BatchOk(cfg, w) && i < |w.slots| && Untouched(cfg, w, i) && !Tracked(t)
    requires var s := w.slots[i]; t.cache == s.cache && t.nPast == s.nPast && t.lora == s.lora && t.kind == s.kind
    requires PhaseOk(cfg, t)
    ensures BatchOk(cfg, Put(w, i, t)) && OthersKept(cfg, w, Put(w, i, t), i)
  {
    PutCells(cfg, w, i, t);
    assert Compatible(Put(w, i, t));
  }

  /** The second half of a turn, for a slot that is ready to take in its prompt. */
  lemma IngestOk(cfg: Config, o: Oracle, start: Work, w: Work, i: nat)
    requires BatchOk(cfg, start) && OnlySlot(start, w, i) && w.batch == start.batch && w.batched == start.batched
    requires w.batched.Some? && CanBatch(w.slots[w.batched.value], w.slots[i])
    requires Pending(w.batch, i, 0) == 0 && Trimmable(cfg, w.slots[i], w.kv[i])
    requires w.slots[i].kind == start.slots[i].kind && w.slots[i].lora == start.slots[i].lora
    requires NonCausal(w.slots[i]) ==> BatchOk(cfg, w) && OthersKept(cfg, start, w, i) && w.slots[i].nPast == 0
    ensures TurnKept(cfg, start, IngestTurn(cfg, o, w, i).work, i)
  {
    var s := w.slots[i];
    if !(NonCausal(s) && |w.batch| + s.nPromptTokens > cfg.nBatch) {
      TrimmedFeeds(cfg, w, i, o.removes(i), start);
      var t := Trimmed(w, i, o.removes(i));
      AddTokensOk(cfg, t, i);
      FedFromStart(cfg, start, t, AddTokens(cfg, t, i), i);
      TakeInOk(cfg, start, AddTokens(cfg, t, i), i);
    }
  }

  lemma ResumeOk(cfg: Config, o: Oracle, w: Work, i: nat)
    requires PromptsOk(cfg, w, i) && i < |w.slots| && Joins(w, i) && w.slots[i].phase == ProcessingPrompt
    ensures TurnKept(cfg, w, PromptTurn(cfg, o, w, i).work, i)
  {
    var j := Joined(w, i);
    assert Untouched(cfg, w, i);
    JoinedOk(cfg, w, i);
    ResumedIsTrimmable(cfg, w.slots[i], w.kv[i]);
    IngestOk(cfg, o, j, j, i);
    TurnKeptAgain(cfg, w, j, IngestTurn(cfg, o, j, i).work, i);
  }

  /** Telling something changes nothing else. */
  lemma TellOk(cfg: Config, start: Work, w: Work, i: nat, events: seq<Event>)
    requires BatchOk(cfg, w) && OthersKept(cfg, start, w, i)
    ensures BatchOk(cfg, Tell(w, events)) && OthersKept(cfg, start, Tell(w, events), i)
  {
    var t := Tell(w, events);
    forall j | 0 <= j < |t.batch| ensures EntryOk(t.slots, t.batch, j) { assert EntryOk(w.slots, w.batch, j); }
    forall k | 0 <= k < |t.slots| ensures Behind(cfg, t.slots[k], t.kv[k], Pending(t.batch, k, 0)) {
      assert Behind(cfg, w.slots[k], w.kv[k], Pending(w.batch, k, 0));
    }
  }

  lemma RefusedOk(cfg: Config, o: Oracle, w: Work, i: nat)
    requires PromptsOk(cfg, w, i) && i < |w.slots| && Joins(w, i) && w.slots[i].phase == Started
    requires OpenPrompt(cfg, w.slots[i], w.kv[i]).Refused?
    ensures TurnKept(cfg, w, PromptTurn(cfg, o, w, i).work, i)
  {
    var j, opening := Joined(w, i), OpenPrompt(cfg, w.slots[i], w.kv[i]);
    assert Untouched(cfg, w, i);
    JoinedOk(cfg, w, i);
    PutOk(cfg, j, i, opening.slot);
    OthersKeptAgain(cfg, w, j, Put(j, i, opening.slot), i);
    TellOk(cfg, w, Put(j, i, opening.slot), i, [Released(i), Sent(opening.slot.idTask, opening.reply)]);
  }

  /** An opened prompt is ready to be taken in. */
  lemma OpenedOk(cfg: Config, w: Work, i: nat, v: Work)
    requires PromptsOk(cfg, w, i) && i < |w.slots| && Joins(w, i) && w.slots[i].phase == Started
    requires var opening := OpenPrompt(cfg, w.slots[i], w.kv[i]); var j := Joined(w, i);
             opening.Opened? && v == Put(j, i, opening.slot).(kv := j.kv[i := opening.kv])
    ensures var j := Joined(w, i);
            && BatchOk(cfg, j) && OnlySlot(j, v, i) && v.batch == j.batch && v.batched == j.batched
            && v.batched.Some? && CanBatch(v.slots[v.batched.value], v.slots[i])
            && Pending(v.batch, i, 0) == 0 && Trimmable(cfg, v.slots[i], v.kv[i])
            && v.slots[i].kind == j.slots[i].kind && v.slots[i].lora == j.slots[i].lora
            && (NonCausal(v.slots[i]) ==> BatchOk(cfg, v) && OthersKept(cfg, j, v, i) && v.slots[i].nPast == 0)
  {
    var j, t := Joined(w, i), v.slots[i];
    assert Untouched(cfg, w, i);
    JoinedOk(cfg, w, i);
    OpenedFits(cfg, w.slots[i], w.kv[i]);
    OpenedIsTrimmable(cfg, w.slots[i], w.kv[i]);
    if NonCausal(t) {
      PutOk(cfg, j, i, t);
      assert v == Put(j, i, t);
    }
  }

  lemma OpenOk(cfg: Config, o: Oracle, w: Work, i: nat)
    requires PromptsOk(cfg, w, i) && i < |w.slots| && Joins(w, i) && w.slots[i].phase == Started
    requires OpenPrompt(cfg, w.slots[i], w.kv[i]).Opened?
    ensures TurnKept(cfg, w, PromptTurn(cfg, o, w, i).work, i)
  {
    var j, opening := Joined(w, i), OpenPrompt(cfg, w.slots[i], w.kv[i]);
    var v := Put(j, i, opening.slot).(kv := j.kv[i := opening.kv]);
    assert PromptTurn(cfg, o, w, i) == IngestTurn(cfg, o, v, i);
    OpenedOk(cfg, w, i, v);
    JoinedOk(cfg, w, i);
    hide PromptTurn, IngestTurn, BatchOk, Trimmable, PromptsOk, OpenPrompt, TurnKept;
    IngestOk(cfg, o, j, v, i);
    TurnKeptAgain(cfg, w, j, IngestTurn(cfg, o, v, i).work, i);
  }

  lemma PromptTurnOk(cfg: Config, o: Oracle, w: Work, i: nat)
    requires PromptsOk(cfg, w, i) && i < |w.slots|
    ensures TurnKept(cfg, w, PromptTurn(cfg, o, w, i).work, i)
  {
    var s := w.slots[i];
    if Processing(s) && Joins(w, i) {
      JoinedOk(cfg, w, i);
      if s.phase == ProcessingPrompt {
        ResumeOk(cfg, o, w, i);
      } else if s.phase == Started {
        if OpenPrompt(cfg, s, w.kv[i]).Refused? { RefusedOk(cfg, o, w, i); } else { OpenOk(cfg, o, w, i); }
      }
    }
  }

  ghost predicate Built(cfg: Config, w: Work, r: Work) {
    match r
    case Work(_, _, batch, _, _, _) => BatchOk(cfg, r) && (|batch| <= cfg.nBatch || batch == w.batch)
  }

  lemma PromptTurnKeeps(cfg: Config, o: Oracle, w: Work, i: nat)
    requires PromptsOk(cfg, w, i) && i < |w.slots|
    ensures PromptsOk(cfg, PromptTurn(cfg, o, w, i).work, i + 1)
    ensures Built(cfg, w, PromptTurn(cfg, o, w, i).work)
  {
    PromptTurnOk(cfg, o, w, i);
  }

  /** The loop has come to slot `i`: the batch is sound, and `n_batch` is kept to. */
  ghost predicate BuiltUpTo(cfg: Config, start: Work, w: Work, i: nat) {
    PromptsOk(cfg, w, i) && Built(cfg, start, w)
  }

  lemma TurnBuildsOn(cfg: Config, o: Oracle, start: Work, w: Work, i: nat)
    requires Shaped(w) && i < |w.slots| && BuiltUpTo(cfg, start, w, i)
    ensures BuiltUpTo(cfg, start, PromptTurn(cfg, o, w, i).work, i + 1)
  {
    PromptTurnKeeps(cfg, o, w, i);
  }

  lemma PromptsFromOk(cfg: Config, o: Oracle, w: Work)
    requires PromptsOk(cfg, w, 0)
    ensures Built(cfg, w, PromptsFrom(cfg, o, w, 0))
  {
    var inv := (v: Work, k: nat) => BuiltUpTo(cfg, w, v, k);
    forall v: Work, k: nat | inv(v, k) && Shaped(v) && k < |v.slots| ensures inv(PromptTurn(cfg, o, v, k).work, k + 1) {
      TurnBuildsOn(cfg, o, w, v, k);
    }
    var _ := PromptsKeep(cfg, o, w, 0, PromptsFrom(cfg, o, w, 0), inv);
  }

  /** An embedding or rerank prompt that has to wait for a batch with more room keeps the cached tokens of an
      earlier task, with `n_past` 0: the two agree exactly if there were none. */
  lemma WaitingSlotKeepsOldCache(cfg: Config, o: Oracle, w: Work, i: nat)
    requires Shaped(w) && i < |w.slots| && w.slots[i].phase == Started && NonCausal(w.slots[i]) && Joins(w, i)
    requires OpenPrompt(cfg, w.slots[i], w.kv[i]).Opened? && |w.batch| + |w.slots[i].prompt| > cfg.nBatch
    ensures var t := PromptTurn(cfg, o, w, i).work.slots[i];
            && t.phase == ProcessingPrompt && t.nPast == 0 && t.cache == w.slots[i].cache
            && (t.nPast == |t.cache| <==> w.slots[i].cache == [])
  {
  }

  // ------------------------------------------------------------------ what a sound batch is like

  /** Slots that share a batch both want embeddings or scores or neither does, and their adapters agree in pointers and
      scales, one by one. */
  lemma BatchIsPairwiseCompatible(w: Work, j: nat, k: nat)
    requires Compatible(w) && j < |w.batch| && k < |w.batch|
    ensures var s, t := w.slots[w.batch[j].seqId], w.slots[w.batch[k].seqId];
            && (s.kind == Embedding || s.kind == Rerank <==> t.kind == Embedding || t.kind == Rerank)
            && |s.lora| == |t.lora|
            && forall a :: 0 <= a < |s.lora| ==> s.lora[a].ptr == t.lora[a].ptr && s.lora[a].scale == t.lora[a].scale
  {
    var s, t := w.slots[w.batch[j].seqId], w.slots[w.batch[k].seqId];
    assert Effective(s.lora) == Effective(t.lora);
    forall a | 0 <= a < |s.lora| ensures s.lora[a].ptr == t.lora[a].ptr && s.lora[a].scale == t.lora[a].scale {
      assert Effective(s.lora)[a] == Effective(t.lora)[a];
    }
  }

  /** Different slots never sample from the same entry. */
  lemma ReadyIndicesDiffer(cfg: Config, w: Work, i: nat, k: nat)
    requires BatchOk(cfg, w) && i < |w.slots| && k < |w.slots| && i != k && IsReady(w.slots[i]) && IsReady(w.slots[k])
    ensures w.slots[i].iBatch != w.slots[k].iBatch
  {
    assert ReadyOk(w.slots[i], w.batch, i) && ReadyOk(w.slots[k], w.batch, k);
  }

  /** Two entries of one slot with none of its own between them sit at neighbouring positions, and the last one
      right below `n_past`. */
  lemma PositionsAreConsecutive(cfg: Config, w: Work, j: nat, k: nat)
    requires BatchOk(cfg, w) && j < k <= |w.batch|
    requires forall m :: j < m < k ==> w.batch[m].seqId != w.batch[j].seqId
    requires k < |w.batch| ==> w.batch[k].seqId == w.batch[j].seqId
    ensures w.batch[j].pos + 1 == if k < |w.batch| then w.batch[k].pos else w.slots[w.batch[j].seqId].nPast
  {
    assert EntryOk(w.slots, w.batch, j);
    if k < |w.batch| { assert EntryOk(w.slots, w.batch, k); }
    PendingBetween(w.batch, w.batch[j].seqId, j + 1, k);
  }

  lemma {:induction false} PendingBetween(batch: seq<Entry>, i: nat, j: nat, k: nat)
    requires j <= k <= |batch| && forall m :: j <= m < k ==> batch[m].seqId != i
    ensures Pending(batch, i, j) == Pending(batch, i, k)
    decreases k - j
  {
    if j < k { PendingBetween(batch, i, j + 1, k); }
  }
}
