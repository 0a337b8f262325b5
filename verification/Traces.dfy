/** What `update_slots` tells the outside world, as a trace: which orders of releases and results are legal, and
    that every call keeps to them. The task protocol relies on nothing else about the call. */
module Traces {
  import opened Wrappers
  import opened KvCache
  import opened Slots
  import opened UpdateSlots

  /** What must come next: nothing in particular, the answer of a slot that was just released, or the release of
      a slot that just answered (embeddings and scores are sent first). */
  datatype Due = Nothing | Answer(task: int) | Freeing(task: int)

  /** The tasks of the busy slots, and what is due. */
  datatype Watch = Watch(busy: seq<Option<int>>, due: Due)

  predicate Early(r: Reply) { r.Embeddings? || r.Score? }

  /** One event, if it is legal. */
  function Move(w: Watch, e: Event): Option<Watch> {
    match e
    case Decoded(_, _) => if w.due.Nothing? then Some(w) else None
    case Sampled(i, _) => if w.due.Nothing? && i < |w.busy| && w.busy[i].Some? then Some(w) else None
    case Read(i) => if w.due.Nothing? && i < |w.busy| && w.busy[i].Some? then Some(w) else None
    case Released(i) =>
      if i >= |w.busy| || w.busy[i].None? then None
      else if w.due.Nothing? then Some(Watch(w.busy[i := None], Answer(w.busy[i].value)))
      else if w.due == Freeing(w.busy[i].value) then Some(Watch(w.busy[i := None], Nothing))
      else None
    case Sent(t, reply) =>
      if reply.Partial? then if w.due.Nothing? && Some(t) in w.busy then Some(w) else None
      else if Early(reply) then if w.due.Nothing? && Some(t) in w.busy then Some(w.(due := Freeing(t))) else None
      else if w.due == Answer(t) then Some(w.(due := Nothing)) else None
  }

  function Watched(w: Watch, events: seq<Event>): Option<Watch>
    decreases |events|
  {
    if events == [] then Some(w) else
    var v := Watched(w, events[..|events| - 1]);
    if v.None? then None else Move(v.value, events[|events| - 1])
  }

  lemma {:induction false} WatchedAppend(w: Watch, a: seq<Event>, b: seq<Event>)
    ensures Watched(w, a + b) == if Watched(w, a).None? then None else Watched(Watched(w, a).value, b)
    decreases |b|
  {
    if b == [] {
      assert a + b == a;
    } else {
      WatchedAppend(w, a, b[..|b| - 1]);
      assert (a + b)[..|a + b| - 1] == a + b[..|b| - 1];
    }
  }

  lemma WatchedTwo(w: Watch, e: Event, f: Event)
    ensures Watched(w, [e, f]) == if Move(w, e).None? then None else Move(Move(w, e).value, f)
  {
    assert [e, f][..1] == [e];
    WatchedOne(w, e);
  }

  lemma WatchedOne(w: Watch, e: Event)
    ensures Watched(w, [e]) == Move(w, e)
  {
    assert [e][..0] == [];
  }

  function TaskOf(s: Slot): Option<int> { if Processing(s) then Some(s.idTask) else None }

  function Tasks(slots: seq<Slot>): (r: seq<Option<int>>)
    ensures |r| == |slots| && forall i :: 0 <= i < |r| ==> r[i] == TaskOf(slots[i])
  {
    seq(|slots|, i requires 0 <= i < |slots| => TaskOf(slots[i]))
  }

  function Steady(slots: seq<Slot>): Watch { Watch(Tasks(slots), Nothing) }

  /** What was told between `w` and `r` is legal and leads from the busy slots of `w` to those of `r`. */
  ghost predicate Follows(w: Work, r: Work) {
    match r
    case Work(slots, _, _, _, _, events) =>
      && |w.events| <= |events| && events[..|w.events|] == w.events
      && Watched(Steady(w.slots), events[|w.events|..]) == Some(Steady(slots))
  }

  lemma FollowsAgain(w: Work, v: Work, r: Work)
    requires Follows(w, v) && Follows(v, r)
    ensures Follows(w, r)
  {
    assert r.events[|w.events|..] == v.events[|w.events|..] + r.events[|v.events|..] by {
      assert r.events == r.events[..|v.events|] + r.events[|v.events|..];
    }
    WatchedAppend(Steady(w.slots), v.events[|w.events|..], r.events[|v.events|..]);
    assert r.events[..|w.events|] == v.events[..|w.events|];
  }

  /** Nothing is told, and no slot changes its task. */
  lemma SilentFollows(w: Work, r: Work)
    requires r.events == w.events && Tasks(r.slots) == Tasks(w.slots)
    ensures Follows(w, r)
  {
  }

  lemma ToldFollows(w: Work, r: Work, told: seq<Event>)
    requires r.events == w.events + told && Watched(Steady(w.slots), told) == Some(Steady(r.slots))
    ensures Follows(w, r)
  {
    assert r.events[|w.events|..] == told;
  }

  /** One slot keeps its task. */
  lemma SameTask(slots: seq<Slot>, i: nat, t: Slot)
    requires i < |slots| && TaskOf(t) == TaskOf(slots[i])
    ensures Tasks(slots[i := t]) == Tasks(slots)
  {
  }

  lemma FreedTask(slots: seq<Slot>, i: nat, t: Slot)
    requires i < |slots| && !Processing(t)
    ensures Tasks(slots[i := t]) == Tasks(slots)[i := None]
  {
  }

  /** A busy slot is released and its task answered. */
  lemma AnsweredFollows(w: Work, r: Work, i: nat, t: Slot, reply: Reply)
    requires i < |w.slots| && Processing(w.slots[i]) && !Processing(t) && !reply.Partial? && !Early(reply)
    requires r.slots == w.slots[i := t] && r.events == w.events + [Released(i), Sent(w.slots[i].idTask, reply)]
    ensures Follows(w, r)
  {
    FreedTask(w.slots, i, t);
    WatchedTwo(Steady(w.slots), Released(i), Sent(w.slots[i].idTask, reply));
    ToldFollows(w, r, [Released(i), Sent(w.slots[i].idTask, reply)]);
  }

  lemma EarlyFollows(w: Work, r: Work, i: nat, t: Slot, reply: Reply)
    requires i < |w.slots| && Processing(w.slots[i]) && !Processing(t) && Early(reply)
    requires r.slots == w.slots[i := t] && r.events == w.events + [Read(i), Sent(w.slots[i].idTask, reply), Released(i)]
    ensures Follows(w, r)
  {
    var told := [Sent(w.slots[i].idTask, reply), Released(i)];
    FreedTask(w.slots, i, t);
    assert Tasks(w.slots)[i] == Some(w.slots[i].idTask);
    WatchedOne(Steady(w.slots), Read(i));
    WatchedTwo(Steady(w.slots), told[0], told[1]);
    WatchedAppend(Steady(w.slots), [Read(i)], told);
    ToldFollows(w, r, [Read(i)] + told);
  }

  // ------------------------------------------------------------------ the steps of the call

  lemma {:induction false} ShiftFollows(cfg: Config, w: Work, i: nat)
    requires Shaped(w) && i <= |w.slots|
    ensures Follows(w, ShiftFrom(cfg, w, i))
    decreases |w.slots| - i
  {
    if i == |w.slots| {
      SilentFollows(w, w);
    } else {
      var s, v := w.slots[i], ShiftStep(cfg, w, i);
      if NeedsShift(cfg, s) && !cfg.ctxShift {
        AnsweredFollows(w, v, i, Release(s), Error(ShiftDisabled));
      } else {
        SilentFollows(w, v);
      }
      ShiftFollows(cfg, v, i + 1);
      FollowsAgain(w, v, ShiftFrom(cfg, w, i));
    }
  }

  lemma {:induction false} SampledFollows(w: Work, i: nat)
    requires Shaped(w) && i <= |w.slots|
    ensures Follows(w, SampledFrom(w, i))
    decreases |w.slots| - i
  {
    if i == |w.slots| {
      SilentFollows(w, w);
    } else {
      var v := SampledStep(w, i);
      SilentFollows(w, v);
      SampledFollows(v, i + 1);
      FollowsAgain(w, v, SampledFrom(w, i));
    }
  }

  lemma {:induction false} AddTokensFollows(cfg: Config, w: Work, i: nat)
    requires Shaped(w) && i < |w.slots|
    ensures var r := AddTokens(cfg, w, i);
            r.events == w.events && Tasks(r.slots) == Tasks(w.slots) && r.slots[i].phase == w.slots[i].phase
    decreases cfg.nBatch - |w.batch|
  {
    var s := w.slots[i];
    if s.nPast < s.nPromptTokens && s.nPast < |s.prompt| && |w.batch| < cfg.nBatch {
      var v := PushToken(w, i, s.prompt[s.nPast], s.kind == Embedding && cfg.noPooling);
      SameTask(w.slots, i, v.slots[i]);
      AddTokensFollows(cfg, v, i);
    }
  }

  lemma IngestFollows(cfg: Config, o: Oracle, w: Work, i: nat)
    requires Shaped(w) && i < |w.slots| && Processing(w.slots[i])
    ensures var r := IngestTurn(cfg, o, w, i).work; r.events == w.events && Tasks(r.slots) == Tasks(w.slots)
  {
    var s := w.slots[i];
    if !(NonCausal(s) && |w.batch| + s.nPromptTokens > cfg.nBatch) {
      var t := Trimmed(w, i, o.removes(i));
      SameTask(w.slots, i, t.slots[i]);
      AddTokensFollows(cfg, t, i);
      var a := AddTokens(cfg, t, i);
      if a.slots[i].nPast == a.slots[i].nPromptTokens && a.batch != [] {
        SameTask(a.slots, i, PromptDone(a, i).slots[i]);
      }
    }
  }

  lemma OpenKeepsTask(cfg: Config, s: Slot, kv: Kv)
    requires s.phase == Started
    ensures var r := OpenPrompt(cfg, s, kv);
            && r.slot.idTask == s.idTask
            && (r.Refused? ==> r.slot.phase == Idle && !r.reply.Partial? && !Early(r.reply))
            && (r.Opened? ==> r.slot.phase == ProcessingPrompt)
  {
  }

  lemma PromptTurnFollows(cfg: Config, o: Oracle, w: Work, i: nat)
    requires Shaped(w) && i < |w.slots|
    ensures Follows(w, PromptTurn(cfg, o, w, i).work)
  {
    var s, r := w.slots[i], PromptTurn(cfg, o, w, i).work;
    if HasPrompt(s) && Joins(w, i) {
      var j := Joined(w, i);
      if s.phase == ProcessingPrompt {
        IngestFollows(cfg, o, j, i);
        SilentFollows(w, r);
      } else {
        OpenKeepsTask(cfg, s, w.kv[i]);
        match OpenPrompt(cfg, s, w.kv[i])
        case Refused(t, reply) => AnsweredFollows(w, r, i, t, reply);
        case Opened(t, kv) =>
          SameTask(w.slots, i, t);
          IngestFollows(cfg, o, Put(j, i, t).(kv := j.kv[i := kv]), i);
          SilentFollows(w, r);
      }
    } else {
      SilentFollows(w, r);
    }
  }

  lemma {:induction false} PromptsFollow(cfg: Config, o: Oracle, w: Work, i: nat)
    requires Shaped(w) && i <= |w.slots|
    ensures Follows(w, PromptsFrom(cfg, o, w, i))
    decreases |w.slots| - i
  {
    if i == |w.slots| {
      SilentFollows(w, w);
    } else {
      var t := PromptTurn(cfg, o, w, i);
      PromptTurnFollows(cfg, o, w, i);
      if !(t.full && |t.work.batch| >= cfg.nBatch) {
        PromptsFollow(cfg, o, t.work, i + 1);
        FollowsAgain(w, t.work, PromptsFrom(cfg, o, w, i));
      }
    }
  }

  lemma BuiltFollows(cfg: Config, o: Oracle, w: Work)
    requires Shaped(w)
    ensures Follows(w, BuiltFrom(cfg, o, w))
  {
    var a := ShiftFrom(cfg, w, 0);
    var b := a.(batch := [], logits := [], batched := None);
    ShiftFollows(cfg, w, 0);
    SilentFollows(a, b);
    FollowsAgain(w, a, b);
    SampledFollows(b, 0);
    var c := SampledFrom(b, 0);
    FollowsAgain(w, b, c);
    if cfg.contBatching || c.batch == [] {
      PromptsFollow(cfg, o, c, 0);
      FollowsAgain(w, c, PromptsFrom(cfg, o, c, 0));
    }
  }

  // ------------------------------------------------------------------ decoding

  /** Telling a token: a partial result of a busy task, then perhaps its end. */
  lemma ConcludedFollows(w: Work, i: nat, p: Processed)
    requires Shaped(w) && i < |w.slots| && Processing(w.slots[i])
    requires p.slot.idTask == w.slots[i].idTask && Processing(p.slot)
    ensures Follows(w, Concluded(w, i, p))
  {
    var told := Tell(w, PartialEvents(p.slot, p.out));
    if p.out.Some? {
      assert Tasks(w.slots)[i] == Some(p.slot.idTask);
      WatchedOne(Steady(w.slots), Sent(p.slot.idTask, Partial(p.out.value)));
      ToldFollows(w, told, [Sent(p.slot.idTask, Partial(p.out.value))]);
    } else {
      SilentFollows(w, told);
    }
    var r := Concluded(w, i, p);
    if p.slot.text.hasNext {
      SameTask(w.slots, i, p.slot);
      SilentFollows(told, r);
    } else {
      AnsweredFollows(told, r, i, Release(p.slot), FinalReply(p.slot));
    }
    FollowsAgain(w, told, r);
  }

  /** A token is sampled for a busy slot and told. */
  lemma DrawnFollows(cfg: Config, w: Work, i: nat, index: int, smp: Sample)
    requires Shaped(w) && i < |w.slots| && Processing(w.slots[i])
    ensures Follows(w, DrawToken(cfg, w, i, index, smp))
  {
    var t := Counted(w.slots[i]);
    var told := Tell(w, [Sampled(i, index)]);
    ProcessTokenStops(cfg, t, smp);
    WatchedOne(Steady(w.slots), Sampled(i, index));
    ToldFollows(w, told, [Sampled(i, index)]);
    ConcludedFollows(told, i, ProcessToken(cfg, t, smp));
    FollowsAgain(w, told, Concluded(told, i, ProcessToken(cfg, t, smp)));
  }

  lemma EarlyStepFollows(cfg: Config, o: Oracle, call: nat, start: nat, count: nat, w: Work, i: nat)
    requires Shaped(w) && i < |w.slots| && InView(w.slots[i], start, count) && w.slots[i].phase == DonePrompt
             && NonCausal(w.slots[i])
    ensures Follows(w, HandleStep(cfg, o, call, start, count, w, i))
  {
    var s, r := w.slots[i], HandleStep(cfg, o, call, start, count, w, i);
    EarlyStep(cfg, o, call, start, count, w, i);
    EarlyFollows(w, r, i, Release(s).(iBatch := -1), if s.kind == Embedding then Embeddings else Score);
  }

  lemma DrawnStepFollows(cfg: Config, o: Oracle, call: nat, start: nat, count: nat, w: Work, i: nat)
    requires Shaped(w) && i < |w.slots| && InView(w.slots[i], start, count)
    requires w.slots[i].phase == Generating || (w.slots[i].phase == DonePrompt && !NonCausal(w.slots[i]))
    ensures Follows(w, HandleStep(cfg, o, call, start, count, w, i))
  {
    hide HandleStep, DrawToken, Follows;
    DrawnStep(cfg, o, call, start, count, w, i);
    DrawnFollows(cfg, w, i, w.slots[i].iBatch - start, o.samples(call, i));
  }

  lemma HandleStepFollows(cfg: Config, o: Oracle, call: nat, start: nat, count: nat, w: Work, i: nat)
    requires Shaped(w) && i < |w.slots|
    ensures Follows(w, HandleStep(cfg, o, call, start, count, w, i))
  {
    var s := w.slots[i];
    if !InView(s, start, count) || (s.phase != DonePrompt && s.phase != Generating) {
      QuietStep(cfg, o, call, start, count, w, i);
      SilentFollows(w, w);
    } else if s.phase == DonePrompt && NonCausal(s) {
      EarlyStepFollows(cfg, o, call, start, count, w, i);
    } else {
      DrawnStepFollows(cfg, o, call, start, count, w, i);
    }
  }

  lemma {:induction false} HandleFollows(cfg: Config, o: Oracle, call: nat, start: nat, count: nat, w: Work, i: nat)
    requires Shaped(w) && i <= |w.slots|
    ensures Follows(w, HandleFrom(cfg, o, call, start, count, w, i))
    decreases |w.slots| - i
  {
    if i == |w.slots| {
      SilentFollows(w, w);
    } else {
      var v := HandleStep(cfg, o, call, start, count, w, i);
      HandleStepFollows(cfg, o, call, start, count, w, i);
      HandleFollows(cfg, o, call, start, count, v, i + 1);
      FollowsAgain(w, v, HandleFrom(cfg, o, call, start, count, w, i));
    }
  }

  lemma {:induction false} EmitFollows(cfg: Config, w: Work, i: nat, ids: seq<Sample>, j: nat)
    requires Shaped(w) && i < |w.slots| && j <= |ids| && Processing(w.slots[i]) && w.slots[i].nDecoded >= 1
    ensures Follows(w, EmitFrom(cfg, w, i, ids, j))
    decreases |ids| - j
  {
    if j == |ids| {
      SilentFollows(w, w);
    } else {
      var p := ProcessToken(cfg, w.slots[i], ids[j]);
      ProcessTokenStops(cfg, w.slots[i], ids[j]);
      ConcludedFollows(w, i, p);
      if p.slot.text.hasNext {
        EmitFollows(cfg, Concluded(w, i, p), i, ids, j + 1);
        FollowsAgain(w, Concluded(w, i, p), EmitFrom(cfg, w, i, ids, j));
      }
    }
  }

  lemma SpeculateStepFollows(cfg: Config, o: Oracle, call: nat, w: Work, i: nat)
    requires Shaped(w) && i < |w.slots|
    ensures Follows(w, SpeculateStep(cfg, o, call, w, i))
  {
    var s, r := w.slots[i], SpeculateStep(cfg, o, call, w, i);
    if Speculates(cfg, o, call, s, i) {
      var draft := Draft(cfg, o, call, s, i);
      var ids := AcceptedIds(o, call, i, draft);
      var v := Put(w, i, Advanced(s, ids)).(kv := w.kv[i := AdvancedKv(s, w.kv[i], draft, ids, InForce(w),
        o.verifies(call, i))]);
      SameTask(w.slots, i, Advanced(s, ids));
      SilentFollows(w, v);
      EmitFollows(cfg, v, i, ids, 0);
      FollowsAgain(w, v, r);
    } else {
      SilentFollows(w, r);
    }
  }

  lemma {:induction false} SpeculateFollows(cfg: Config, o: Oracle, call: nat, w: Work, i: nat)
    requires Shaped(w) && i <= |w.slots|
    ensures Follows(w, SpeculateFrom(cfg, o, call, w, i))
    decreases |w.slots| - i
  {
    if i == |w.slots| {
      SilentFollows(w, w);
    } else {
      var r := SpeculateStep(cfg, o, call, w, i);
      SpeculateStepFollows(cfg, o, call, w, i);
      SpeculateFollows(cfg, o, call, r, i + 1);
      FollowsAgain(w, r, SpeculateFrom(cfg, o, call, w, i));
    }
  }

  lemma ViewDoneFollows(cfg: Config, o: Oracle, call: nat, start: nat, count: nat, w: Work)
    requires Shaped(w) && start + count <= |w.batch|
    ensures Follows(w, ViewDone(cfg, o, call, start, count, w))
  {
    var d := ViewDecoded(w, start, count);
    WatchedOne(Steady(w.slots), Decoded(start, count));
    ToldFollows(w, d, [Decoded(start, count)]);
    HandleFollows(cfg, o, call, start, count, d, 0);
    var h := HandleFrom(cfg, o, call, start, count, d, 0);
    FollowsAgain(w, d, h);
    if cfg.hasDraft {
      SpeculateFollows(cfg, o, call, h, 0);
      FollowsAgain(w, h, SpeculateFrom(cfg, o, call, h, 0));
    }
  }

  lemma {:induction false} DecodeFollows(cfg: Config, o: Oracle, l: Loop)
    requires Shaped(l.work) && l.nBatch >= 1 && !DecodeFrom(cfg, o, l).fatal
    ensures Follows(l.work, DecodeFrom(cfg, o, l).work)
    decreases |l.work.batch| - l.i, l.nBatch
  {
    var w := l.work;
    match DecodeTurn(cfg, o, l)
    case Stop(_) => SilentFollows(w, w);
    case Again(m) =>
      if o.decodes(l.call) == 0 {
        ViewDoneFollows(cfg, o, l.call, l.i, Min(l.nBatch, |w.batch| - l.i), w);
      } else {
        SilentFollows(w, w);
      }
      DecodeFollows(cfg, o, m);
      FollowsAgain(w, m.work, DecodeFrom(cfg, o, l).work);
  }

  /** Every call of `update_slots` in which decoding does not fail for good tells a legal trace that leads from
      the tasks that ran before it to those that run after it: a slot is released once and with exactly one
      answer for its own task, partial results come for running tasks only, and nothing else is sent. */
  lemma UpdateIsLegal(cfg: Config, sv: Server, o: Oracle)
    requires Valid(sv) && !Update(cfg, sv, o).fatal
    ensures var r := Update(cfg, sv, o);
            Watched(Steady(sv.slots), r.events) == Some(Steady(r.server.slots))
  {
    if !AllIdle(sv.slots) {
      var w0 := Begun(sv);
      var b := BuiltFrom(cfg, o, w0);
      BuiltFollows(cfg, o, w0);
      DecodeFollows(cfg, o, Loop(b, 0, cfg.nBatch, 0));
      FollowsAgain(w0, b, DecodeFrom(cfg, o, Loop(b, 0, cfg.nBatch, 0)).work);
    }
  }

  // ------------------------------------------------------------------ giving up

  lemma {:induction false} GiveUpGrows(w: Work, i: nat)
    requires Shaped(w) && i <= |w.slots|
    ensures w.events <= GiveUpFrom(w, i).events
    decreases |w.slots| - i
  {
    if i < |w.slots| { GiveUpGrows(GiveUpOne(w, i), i + 1); }
  }

  lemma {:induction false} GiveUpFollows(w: Work, i: nat)
    requires Shaped(w) && i <= |w.slots| && forall k :: i <= k < |w.slots| ==> Processing(w.slots[k])
    ensures Follows(w, GiveUpFrom(w, i))
    decreases |w.slots| - i
  {
    if i == |w.slots| {
      SilentFollows(w, w);
    } else {
      var s, v := w.slots[i], GiveUpOne(w, i);
      AnsweredFollows(w, v, i, Release(s), Error(KvFull));
      GiveUpFollows(v, i + 1);
      FollowsAgain(w, v, GiveUpFrom(w, i));
    }
  }

  /** An idle slot that is told about a failure is not legal. */
  lemma IdleStrays(w: Work, i: nat)
    requires Shaped(w) && i < |w.slots| && !Processing(w.slots[i])
    ensures w.events <= GiveUpOne(w, i).events
    ensures Watched(Steady(w.slots), GiveUpOne(w, i).events[|w.events|..]).None?
  {
    var e := Sent(w.slots[i].idTask, Error(KvFull));
    assert [] + [e] == [e];
    assert GiveUpOne(w, i).events == w.events + [e];
    assert GiveUpOne(w, i).events[|w.events|..] == [e];
    WatchedOne(Steady(w.slots), e);
  }

  lemma StraysOn(w: Work, v: Work, r: Work)
    requires w.events <= v.events <= r.events
    requires Watched(Steady(w.slots), v.events[|w.events|..]).None?
             || (Follows(w, v) && Watched(Steady(v.slots), r.events[|v.events|..]).None?)
    ensures Watched(Steady(w.slots), r.events[|w.events|..]).None?
  {
    assert r.events[|w.events|..] == v.events[|w.events|..] + r.events[|v.events|..];
    WatchedAppend(Steady(w.slots), v.events[|w.events|..], r.events[|v.events|..]);
  }

  lemma {:induction false} GiveUpStrays(w: Work, i: nat, k: nat)
    requires Shaped(w) && i <= k < |w.slots| && !Processing(w.slots[k])
    ensures w.events <= GiveUpFrom(w, i).events
    ensures Watched(Steady(w.slots), GiveUpFrom(w, i).events[|w.events|..]).None?
    decreases |w.slots| - i
  {
    var v := GiveUpOne(w, i);
    GiveUpGrows(v, i + 1);
    if Processing(w.slots[i]) {
      AnsweredFollows(w, v, i, Release(w.slots[i]), Error(KvFull));
      GiveUpStrays(v, i + 1, k);
    } else {
      IdleStrays(w, i);
    }
    StraysOn(w, v, GiveUpFrom(w, i));
  }

  /** Giving up is legal exactly if every slot is busy: an idle one is told about a failure of the task it ran
      last, which has had its answer. */
  lemma GivingUpIsLegalExactly(w: Work)
    requires Shaped(w)
    ensures w.events <= GiveUpFrom(w, 0).events
    ensures Watched(Steady(w.slots), GiveUpFrom(w, 0).events[|w.events|..]).Some?
            <==> forall k :: 0 <= k < |w.slots| ==> Processing(w.slots[k])
  {
    if forall k :: 0 <= k < |w.slots| ==> Processing(w.slots[k]) {
      GiveUpFollows(w, 0);
    } else {
      var k :| 0 <= k < |w.slots| && !Processing(w.slots[k]);
      GiveUpStrays(w, 0, k);
    }
  }
}
