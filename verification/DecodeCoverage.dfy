/** What the decode-retry loop does with a batch, read off its trace: the views that were decoded follow one
    another without gap or overlap, and every ready slot has its turn exactly once, in the view that holds its
    entry, unless a speculative step ends its task before that. For any failures of the library. */
module DecodeCoverage {
  import opened Wrappers
  import opened Slots
  import opened UpdateSlots
  import opened Budget
  import opened BatchBuilding
  import opened Adapters
  import opened Speculation
  import opened DecodeLoop

  datatype View = View(start: nat, count: nat)

  /** The views decoded from event `from` on. */
  function Views(events: seq<Event>, from: nat): seq<View>
    decreases |events|
  {
    if |events| <= from then [] else
    var front, e := Views(events[..|events| - 1], from), events[|events| - 1];
    if e.Decoded? then front + [View(e.start, e.count)] else front
  }

  /** The views are non-empty and lie end to end, from entry 0 up to entry `to`. */
  predicate Tiles(views: seq<View>, to: nat) {
    if views == [] then to == 0 else
    var last := views[|views| - 1];
    last.count > 0 && last.start + last.count == to && Tiles(views[..|views| - 1], last.start)
  }

  /** A slot's turn: the view decoded last before it, and the index the sampler was asked for; the embeddings or
      the score of a slot are read from the view as a whole. */
  datatype SlotTurn = SlotTurn(view: View, index: Option<int>)

  predicate IsTurn(e: Event, k: nat) { (e.Sampled? || e.Read?) && e.slot == k }

  function LastView(events: seq<Event>, from: nat): View {
    var views := Views(events, from);
    if views == [] then View(0, 0) else views[|views| - 1]
  }

  /** The turn of slot `k` that event `e` is, if it is one. */
  function TurnAt(e: Event, k: nat, view: View): seq<SlotTurn> {
    if IsTurn(e, k) then [SlotTurn(view, if e.Sampled? then Some(e.index) else None)] else []
  }

  function Turns(events: seq<Event>, from: nat, k: nat): seq<SlotTurn>
    decreases |events|
  {
    if |events| <= from then [] else
    var front, e := events[..|events| - 1], events[|events| - 1];
    Turns(front, from, k) + TurnAt(e, k, LastView(front, from))
  }

  lemma {:induction false} OtherEvents(events: seq<Event>, from: nat, more: seq<Event>, k: nat)
    requires from <= |events| && forall j :: 0 <= j < |more| ==> !more[j].Decoded? && !IsTurn(more[j], k)
    ensures Views(events + more, from) == Views(events, from)
    ensures Turns(events + more, from, k) == Turns(events, from, k)
    decreases |more|
  {
    if more == [] {
      assert events + more == events;
    } else {
      OtherEvents(events, from, more[..|more| - 1], k);
      assert (events + more)[..|events + more| - 1] == events + more[..|more| - 1];
    }
  }

  lemma OneEvent(events: seq<Event>, from: nat, e: Event, k: nat)
    requires from <= |events|
    ensures Views(events + [e], from) == Views(events, from) + if e.Decoded? then [View(e.start, e.count)] else []
    ensures Turns(events + [e], from, k) == Turns(events, from, k) + TurnAt(e, k, LastView(events, from))
  {
    assert (events + [e])[..|events|] == events;
  }

  // ------------------------------------------------------------------ one slot

  /** The slot is ready in this view. */
  predicate IsDue(s: Slot, start: nat, count: nat) { IsReady(s) && InView(s, start, count) }

  function TurnIn(s: Slot, view: View): SlotTurn {
    SlotTurn(view, if NonCausal(s) then None else Some(s.iBatch - view.start))
  }

  /** What slot `k` gets between `w` and `r`. */
  ghost predicate StepTurns(w: Work, r: Work, from: nat, k: nat, turns: seq<SlotTurn>) {
    match r
    case Work(_, _, _, _, _, events) =>
      && from <= |w.events| && from <= |events|
      && Views(events, from) == Views(w.events, from)
      && Turns(events, from, k) == Turns(w.events, from, k) + turns
  }

  lemma StepTurnsAgain(w: Work, v: Work, r: Work, from: nat, k: nat, a: seq<SlotTurn>, b: seq<SlotTurn>)
    requires StepTurns(w, v, from, k, a) && StepTurns(v, r, from, k, b)
    ensures StepTurns(w, r, from, k, a + b)
  {
  }

  lemma ConcludedTurns(w: Work, i: nat, p: Processed, from: nat, k: nat)
    requires Shaped(w) && i < |w.slots| && from <= |w.events|
    ensures StepTurns(w, Concluded(w, i, p), from, k, [])
  {
    OtherEvents(w.events, from, PartialEvents(p.slot, p.out), k);
    if !p.slot.text.hasNext {
      OtherEvents(w.events + PartialEvents(p.slot, p.out), from, [Released(i), Sent(p.slot.idTask, FinalReply(p.slot))],
        k);
    }
  }

  lemma SampledTurns(cfg: Config, w: Work, i: nat, index: int, smp: Sample, from: nat, k: nat)
    requires Shaped(w) && i < |w.slots| && from <= |w.events|
    ensures StepTurns(w, DrawToken(cfg, w, i, index, smp), from, k,
                      if k == i then [SlotTurn(LastView(w.events, from), Some(index))] else [])
  {
    var told := Tell(w, [Sampled(i, index)]);
    OneEvent(w.events, from, Sampled(i, index), k);
    ConcludedTurns(told, i, ProcessToken(cfg, Counted(w.slots[i]), smp), from, k);
  }

  /** The turns that the step for slot `i` gives slot `k`. */
  function Given(s: Slot, i: nat, k: nat, view: View): seq<SlotTurn> {
    if k == i && IsDue(s, view.start, view.count) then [TurnIn(s, view)] else []
  }

  lemma EarlyGivesTurn(cfg: Config, o: Oracle, call: nat, view: View, w: Work, i: nat, from: nat, k: nat)
    requires Shaped(w) && i < |w.slots| && from <= |w.events| && LastView(w.events, from) == view
    requires InView(w.slots[i], view.start, view.count) && w.slots[i].phase == DonePrompt && NonCausal(w.slots[i])
    ensures StepTurns(w, HandleStep(cfg, o, call, view.start, view.count, w, i), from, k, Given(w.slots[i], i, k, view))
  {
    var s := w.slots[i];
    EarlyStep(cfg, o, call, view.start, view.count, w, i);
    var more := [Sent(s.idTask, if s.kind == Embedding then Embeddings else Score), Released(i)];
    OneEvent(w.events, from, Read(i), k);
    OtherEvents(w.events + [Read(i)], from, more, k);
    assert w.events + [Read(i)] + more == w.events + EarlyEvents(s, i);
  }

  lemma DrawnGivesTurn(cfg: Config, o: Oracle, call: nat, view: View, w: Work, i: nat, from: nat, k: nat)
    requires Shaped(w) && i < |w.slots| && from <= |w.events| && LastView(w.events, from) == view
    requires InView(w.slots[i], view.start, view.count) && !NonCausal(w.slots[i])
    requires w.slots[i].phase == Generating || w.slots[i].phase == DonePrompt
    ensures StepTurns(w, HandleStep(cfg, o, call, view.start, view.count, w, i), from, k, Given(w.slots[i], i, k, view))
  {
    hide HandleStep, DrawToken, StepTurns;
    DrawnStep(cfg, o, call, view.start, view.count, w, i);
    SampledTurns(cfg, w, i, w.slots[i].iBatch - view.start, o.samples(call, i), from, k);
  }

  lemma StepGivesTurn(cfg: Config, o: Oracle, call: nat, view: View, w: Work, i: nat, from: nat, k: nat)
    requires Shaped(w) && i < |w.slots| && from <= |w.events| && LastView(w.events, from) == view
    requires w.slots[i].phase == Generating ==> !NonCausal(w.slots[i])
    ensures StepTurns(w, HandleStep(cfg, o, call, view.start, view.count, w, i), from, k, Given(w.slots[i], i, k, view))
  {
    if !IsDue(w.slots[i], view.start, view.count) {
      QuietStep(cfg, o, call, view.start, view.count, w, i);
    } else if NonCausal(w.slots[i]) {
      EarlyGivesTurn(cfg, o, call, view, w, i, from, k);
    } else {
      DrawnGivesTurn(cfg, o, call, view, w, i, from, k);
    }
  }

  /** Embedding and rerank slots never generate. */
  predicate GeneratesCausal(slots: seq<Slot>, i: nat) {
    forall j :: i <= j < |slots| ==> (slots[j].phase == Generating ==> !NonCausal(slots[j]))
  }

  /** The first step of the pass, and the rest. */
  lemma HandleUnfold(cfg: Config, o: Oracle, call: nat, view: View, w: Work, i: nat, from: nat, k: nat)
      returns (v: Work)
    requires Shaped(w) && i < |w.slots| && from <= |w.events| && k < |w.slots|
    requires GeneratesCausal(w.slots, i) && LastView(w.events, from) == view
    ensures Shaped(v) && |v.slots| == |w.slots| && from <= |v.events| && LastView(v.events, from) == view
    ensures GeneratesCausal(v.slots, i + 1) && (k != i ==> v.slots[k] == w.slots[k])
    ensures StepTurns(w, v, from, k, Given(w.slots[i], i, k, view))
    ensures HandleFrom(cfg, o, call, view.start, view.count, w, i)
            == HandleFrom(cfg, o, call, view.start, view.count, v, i + 1)
  {
    v := HandleStep(cfg, o, call, view.start, view.count, w, i);
    hide HandleStep;
    HandleStepShape(cfg, o, call, view.start, view.count, w, i);
    StepGivesTurn(cfg, o, call, view, w, i, from, k);
  }

  /** Once its own step is over, the steps for later slots give a slot no other turn. */
  lemma {:induction false} HandleOthers(cfg: Config, o: Oracle, call: nat, view: View, w: Work, i: nat, from: nat,
        k: nat)
    requires Shaped(w) && k < i <= |w.slots| && from <= |w.events|
    requires GeneratesCausal(w.slots, i) && LastView(w.events, from) == view
    ensures StepTurns(w, HandleFrom(cfg, o, call, view.start, view.count, w, i), from, k, [])
    decreases |w.slots| - i
  {
    if i < |w.slots| {
      hide HandleFrom, StepTurns, GeneratesCausal, LastView;
      var v := HandleUnfold(cfg, o, call, view, w, i, from, k);
      HandleOthers(cfg, o, call, view, v, i + 1, from, k);
      StepTurnsAgain(w, v, HandleFrom(cfg, o, call, view.start, view.count, v, i + 1), from, k, [], []);
    }
  }

  /** In one view slot `k` has one turn if it is due, and none otherwise. */
  lemma {:induction false} HandleGivesTurn(cfg: Config, o: Oracle, call: nat, view: View, w: Work, i: nat, from: nat,
        k: nat)
    requires Shaped(w) && i <= k < |w.slots| && from <= |w.events|
    requires GeneratesCausal(w.slots, i) && LastView(w.events, from) == view
    ensures StepTurns(w, HandleFrom(cfg, o, call, view.start, view.count, w, i), from, k, Given(w.slots[k], k, k, view))
    decreases |w.slots| - i
  {
    hide HandleFrom, StepTurns, GeneratesCausal, LastView;
    var v := HandleUnfold(cfg, o, call, view, w, i, from, k);
    var r := HandleFrom(cfg, o, call, view.start, view.count, v, i + 1);
    if i == k {
      HandleOthers(cfg, o, call, view, v, i + 1, from, k);
      StepTurnsAgain(w, v, r, from, k, Given(w.slots[k], k, k, view), []);
      assert Given(w.slots[k], k, k, view) + [] == Given(w.slots[k], k, k, view);
    } else {
      HandleGivesTurn(cfg, o, call, view, v, i + 1, from, k);
      StepTurnsAgain(w, v, r, from, k, [], Given(w.slots[k], k, k, view));
      assert [] + Given(w.slots[k], k, k, view) == Given(w.slots[k], k, k, view);
    }
  }

  lemma {:induction false} HandleKeepsOthers(cfg: Config, o: Oracle, call: nat, view: View, w: Work, i: nat, k: nat)
    requires Shaped(w) && i <= |w.slots| && k < |w.slots| && (k < i || !IsDue(w.slots[k], view.start, view.count))
    ensures HandleFrom(cfg, o, call, view.start, view.count, w, i).slots[k] == w.slots[k]
    decreases |w.slots| - i
  {
    if i < |w.slots| {
      HandleStepShape(cfg, o, call, view.start, view.count, w, i);
      HandleKeepsOthers(cfg, o, call, view, HandleStep(cfg, o, call, view.start, view.count, w, i), i + 1, k);
    }
  }

  /** A slot that is due is handled. */
  lemma {:induction false} HandleTakesTurn(cfg: Config, o: Oracle, call: nat, view: View, w: Work, i: nat, k: nat)
    requires Shaped(w) && i <= k < |w.slots| && IsDue(w.slots[k], view.start, view.count)
    ensures HandleFrom(cfg, o, call, view.start, view.count, w, i).slots[k].iBatch == -1
    decreases |w.slots| - i
  {
    var v := HandleStep(cfg, o, call, view.start, view.count, w, i);
    HandleStepShape(cfg, o, call, view.start, view.count, w, i);
    hide HandleStep, HandledSlot;
    if i < k {
      HandleTakesTurn(cfg, o, call, view, v, i + 1, k);
    } else {
      HandledLeavesBatch(cfg, w.slots[k], o.samples(call, k));
      HandleKeepsOthers(cfg, o, call, view, v, k + 1, k);
    }
  }

  lemma HandledLeavesBatch(cfg: Config, s: Slot, smp: Sample)
    ensures HandledSlot(cfg, s, smp).iBatch == -1
  {
    ProcessTokenStops(cfg, Counted(s), smp);
    hide ProcessToken;
  }

  // ------------------------------------------------------------------ drafts

  /** Telling accepted tokens is no turn. */
  lemma {:induction false} EmitTurns(cfg: Config, w: Work, i: nat, ids: seq<Sample>, j: nat, from: nat, k: nat)
    requires Shaped(w) && i < |w.slots| && j <= |ids| && from <= |w.events|
    ensures StepTurns(w, EmitFrom(cfg, w, i, ids, j), from, k, [])
    decreases |ids| - j
  {
    if j < |ids| {
      var p := ProcessToken(cfg, w.slots[i], ids[j]);
      ConcludedTurns(w, i, p, from, k);
      if p.slot.text.hasNext {
        EmitTurns(cfg, Concluded(w, i, p), i, ids, j + 1, from, k);
        StepTurnsAgain(w, Concluded(w, i, p), EmitFrom(cfg, w, i, ids, j), from, k, [], []);
      }
    }
  }

  lemma SpeculateStepTurns(cfg: Config, o: Oracle, call: nat, w: Work, i: nat, from: nat, k: nat)
    requires Shaped(w) && i < |w.slots| && from <= |w.events| && k < |w.slots|
    ensures var r := SpeculateStep(cfg, o, call, w, i);
            StepTurns(w, r, from, k, []) && r.slots[k].iBatch == w.slots[k].iBatch
  {
    var s := w.slots[i];
    if Speculates(cfg, o, call, s, i) {
      var draft := Draft(cfg, o, call, s, i);
      var ids := AcceptedIds(o, call, i, draft);
      var v := Put(w, i, Advanced(s, ids)).(kv := w.kv[i := AdvancedKv(s, w.kv[i], draft, ids, InForce(w),
        o.verifies(call, i))]);
      EmitKeeps(cfg, v, i, ids, 0);
      EmitTurns(cfg, v, i, ids, 0, from, k);
    }
  }

  /** Speculating gives no turns and leaves every slot's place in the batch. */
  lemma {:induction false} SpeculateTurns(cfg: Config, o: Oracle, call: nat, w: Work, i: nat, from: nat, k: nat)
    requires Shaped(w) && i <= |w.slots| && from <= |w.events| && k < |w.slots|
    ensures var r := SpeculateFrom(cfg, o, call, w, i);
            StepTurns(w, r, from, k, []) && r.slots[k].iBatch == w.slots[k].iBatch
    decreases |w.slots| - i
  {
    if i < |w.slots| {
      var v := SpeculateStep(cfg, o, call, w, i);
      SpeculateStepTurns(cfg, o, call, w, i, from, k);
      SpeculateTurns(cfg, o, call, v, i + 1, from, k);
      StepTurnsAgain(w, v, SpeculateFrom(cfg, o, call, w, i), from, k, [], []);
    }
  }

  // ------------------------------------------------------------------ the loop

  predicate OneTurn(s: Slot, turns: seq<SlotTurn>) {
    |turns| == 1 && turns[0] == TurnIn(s, turns[0].view) && InView(s, turns[0].view.start, turns[0].view.count)
  }

  /** A slot, `s` in the finished batch and `t` when entries before `at` are decoded: not handled and without a
      turn, or handled in its turn. */
  predicate Turned(s: Slot, t: Slot, turns: seq<SlotTurn>, at: nat) {
    if t.iBatch == s.iBatch then turns == []
    else t.iBatch == -1 && IsReady(s) && 0 <= s.iBatch < at && OneTurn(s, turns)
  }

  function TurnsOf(w0: Work, w: Work, k: nat): seq<SlotTurn> { Turns(w.events, |w0.events|, k) }

  ghost predicate CoverOk(w0: Work, l: Loop) {
    match l
    case Loop(w, at, _, _) =>
      && |w.slots| == |w0.slots| && |w0.events| <= |w.events|
      && Tiles(Views(w.events, |w0.events|), at)
      && (forall k :: 0 <= k < |w0.slots| ==> Turned(w0.slots[k], w.slots[k], TurnsOf(w0, w, k), at))
  }

  lemma SoundSlotsGenerateCausal(cfg: Config, w0: Work, l: Loop)
    requires TurnOk(cfg, false, w0, l)
    ensures GeneratesCausal(l.work.slots, 0)
  {
    forall j | 0 <= j < |l.work.slots|
      ensures l.work.slots[j].phase == Generating ==> !NonCausal(l.work.slots[j])
    {
      assert HandledOk(cfg, w0.slots[j], l.work.slots[j], l.work.batch, j, l.i);
    }
  }

  lemma ViewTiles(w0: Work, l: Loop, count: nat)
    requires Shaped(l.work) && l.i + count <= |l.work.batch| && count > 0 && |w0.events| <= |l.work.events|
    requires Tiles(Views(l.work.events, |w0.events|), l.i)
    ensures var events := ViewDecoded(l.work, l.i, count).events;
            && Tiles(Views(events, |w0.events|), l.i + count)
            && LastView(events, |w0.events|) == View(l.i, count)
  {
    var n := |w0.events|;
    OneEvent(l.work.events, n, Decoded(l.i, count), 0);
    var views := Views(l.work.events, n);
    assert Views(ViewDecoded(l.work, l.i, count).events, n)[..|views|] == views;
  }

  /** One view for one slot: `t` before it and `u` after. */
  lemma TurnedNext(s: Slot, t: Slot, u: Slot, turns: seq<SlotTurn>, k: nat, view: View)
    requires Turned(s, t, turns, view.start) && t.kind == s.kind && view.count > 0
    requires if IsDue(t, view.start, view.count) then t.iBatch == s.iBatch && IsReady(s) && u.iBatch == -1
             else u.iBatch == t.iBatch
    ensures Turned(s, u, turns + Given(t, k, k, view), view.start + view.count)
  {
    if !IsDue(t, view.start, view.count) { assert turns + Given(t, k, k, view) == turns; }
  }

  /** What a whole view does for slot `k`. */
  lemma ViewTurns(cfg: Config, o: Oracle, l: Loop, d: Work, h: Work, from: nat, k: nat, count: nat)
    requires Shaped(l.work) && l.i + count <= |l.work.batch| && from <= |l.work.events| && k < |l.work.slots|
    requires d == ViewDecoded(l.work, l.i, count) && h == HandleFrom(cfg, o, l.call, l.i, count, d, 0)
    requires GeneratesCausal(l.work.slots, 0) && LastView(d.events, from) == View(l.i, count)
    ensures var t, r := l.work.slots[k], if cfg.hasDraft then SpeculateFrom(cfg, o, l.call, h, 0) else h;
            && StepTurns(d, r, from, k, Given(t, k, k, View(l.i, count)))
            && r.slots[k].iBatch == if IsDue(t, l.i, count) then -1 else t.iBatch
  {
    var view := View(l.i, count);
    HandleGivesTurn(cfg, o, l.call, view, d, 0, from, k);
    if IsDue(l.work.slots[k], l.i, count) {
      HandleTakesTurn(cfg, o, l.call, view, d, 0, k);
    } else {
      HandleKeepsOthers(cfg, o, l.call, view, d, 0, k);
    }
    if cfg.hasDraft {
      SpeculateTurns(cfg, o, l.call, h, 0, from, k);
      StepTurnsAgain(d, h, SpeculateFrom(cfg, o, l.call, h, 0), from, k, Given(l.work.slots[k], k, k, view), []);
    }
  }

  lemma SlotKeepsCover(cfg: Config, o: Oracle, w0: Work, l: Loop, count: nat, m: Loop, k: nat)
    requires TurnOk(cfg, false, w0, l) && CoverOk(w0, l) && k < |w0.slots| && NextView(cfg, o, l, count, m)
    requires |m.work.slots| == |w0.slots|
    ensures |w0.events| <= |m.work.events| && Tiles(Views(m.work.events, |w0.events|), m.i)
    ensures Turned(w0.slots[k], m.work.slots[k], TurnsOf(w0, m.work, k), m.i)
  {
    var s, t, n, view := w0.slots[k], l.work.slots[k], |w0.events|, View(l.i, count);
    var d := ViewDecoded(l.work, l.i, count);
    OneEvent(l.work.events, n, Decoded(l.i, count), k);
    ViewTiles(w0, l, count);
    SoundSlotsGenerateCausal(cfg, w0, l);
    ViewTurns(cfg, o, l, d, HandleFrom(cfg, o, l.call, l.i, count, d, 0), n, k, count);
    assert HandledOk(cfg, s, t, l.work.batch, k, l.i);
    assert Turned(s, t, TurnsOf(w0, l.work, k), l.i);
    TurnedNext(s, t, m.work.slots[k], TurnsOf(w0, l.work, k), k, view);
  }

  lemma ViewKeepsCover(cfg: Config, o: Oracle, w0: Work, l: Loop, count: nat, m: Loop)
    requires TurnOk(cfg, false, w0, l) && CoverOk(w0, l) && |w0.slots| > 0 && NextView(cfg, o, l, count, m)
    ensures CoverOk(w0, m)
  {
    assert |m.work.slots| == |w0.slots|;
    SlotKeepsCover(cfg, o, w0, l, count, m, 0);
    forall k | 0 <= k < |w0.slots|
      ensures Turned(w0.slots[k], m.work.slots[k], TurnsOf(w0, m.work, k), m.i)
    {
      SlotKeepsCover(cfg, o, w0, l, count, m, k);
    }
  }

  // ------------------------------------------------------------------ the end of the loop

  /** `s` in the finished batch and `t` after the loop. With a draft model a generating slot can miss its turn: then
      a speculative step had ended its task before. */
  predicate TurnedBy(cfg: Config, s: Slot, t: Slot, turns: seq<SlotTurn>, at: nat) {
    if IsReady(s) && 0 <= s.iBatch < at
    then OneTurn(s, turns) || (cfg.hasDraft && turns == [] && s.phase == Generating && t.phase == Idle)
    else turns == []
  }

  /** The result of the loop: decoded views tile the batch up to where the loop got, and a slot that was due
      before had its one turn. */
  ghost predicate Covered(cfg: Config, w0: Work, r: Outcome) {
    && |w0.events| <= |r.work.events| && |r.work.slots| == |w0.slots|
    && Tiles(Views(r.work.events, |w0.events|), Reached(r))
    && (forall k :: 0 <= k < |w0.slots| ==>
          TurnedBy(cfg, w0.slots[k], r.work.slots[k], TurnsOf(w0, r.work, k), Reached(r)))
  }

  lemma {:induction false} GiveUpTakesNoTurn(w: Work, i: nat, from: nat, k: nat)
    requires Shaped(w) && i <= |w.slots| && from <= |w.events|
    ensures StepTurns(w, GiveUpFrom(w, i), from, k, [])
    decreases |w.slots| - i
  {
    if i < |w.slots| {
      var s := w.slots[i];
      OtherEvents(w.events, from, (if Processing(s) then [Released(i)] else []) + [Sent(s.idTask, Error(KvFull))], k);
      GiveUpTakesNoTurn(GiveUpOne(w, i), i + 1, from, k);
      StepTurnsAgain(w, GiveUpOne(w, i), GiveUpFrom(w, i), from, k, [], []);
    }
  }

  /** A slot whose entry was reached is a slot that was handled, or ended before. */
  lemma ReachedIsTurned(cfg: Config, w0: Work, l: Loop, k: nat)
    requires BatchOk(cfg, w0) && TurnOk(cfg, false, w0, l) && CoverOk(w0, l) && k < |w0.slots|
    ensures TurnedBy(cfg, w0.slots[k], l.work.slots[k], TurnsOf(w0, l.work, k), l.i)
  {
    assert ReadyOk(w0.slots[k], w0.batch, k);
    assert HandledOk(cfg, w0.slots[k], l.work.slots[k], l.work.batch, k, l.i);
    assert Turned(w0.slots[k], l.work.slots[k], TurnsOf(w0, l.work, k), l.i);
  }

  lemma GiveUpCovers(cfg: Config, w0: Work, l: Loop)
    requires BatchOk(cfg, w0) && TurnOk(cfg, false, w0, l) && CoverOk(w0, l) && l.i < |w0.batch|
    ensures Covered(cfg, w0, Outcome(GiveUpFrom(l.work, 0), true, l.i))
  {
    var g, n := GiveUpFrom(l.work, 0), |w0.events|;
    GiveUpKeeps(l.work, 0);
    hide GiveUpFrom, TurnOk, BatchOk;
    GiveUpTakesNoTurn(l.work, 0, n, 0);
    forall k | 0 <= k < |w0.slots|
      ensures TurnedBy(cfg, w0.slots[k], g.slots[k], TurnsOf(w0, g, k), l.i)
    {
      GiveUpTakesNoTurn(l.work, 0, n, k);
      ReachedIsTurned(cfg, w0, l, k);
    }
  }

  lemma StopCovers(cfg: Config, o: Oracle, w0: Work, l: Loop)
    requires BatchOk(cfg, w0) && TurnOk(cfg, false, w0, l) && CoverOk(w0, l) && l.i <= |w0.batch|
    requires DecodeTurn(cfg, o, l).Stop?
    ensures Covered(cfg, w0, DecodeTurn(cfg, o, l).outcome)
  {
    if l.i < |w0.batch| {
      GiveUpCovers(cfg, w0, l);
    } else {
      forall k | 0 <= k < |w0.slots|
        ensures TurnedBy(cfg, w0.slots[k], l.work.slots[k], TurnsOf(w0, l.work, k), l.i)
      {
        ReachedIsTurned(cfg, w0, l, k);
      }
    }
  }

  lemma {:induction false} DecodeFromCovers(cfg: Config, o: Oracle, w0: Work, l: Loop)
    requires BatchOk(cfg, w0) && (cfg.hasDraft ==> AllInBudget(cfg, w0) && Paced(w0))
    requires TurnOk(cfg, false, w0, l) && CoverOk(w0, l) && l.i <= |w0.batch|
    ensures Covered(cfg, w0, DecodeFrom(cfg, o, l))
    decreases |l.work.batch| - l.i, l.nBatch
  {
    DecodeTurnOk(cfg, false, o, w0, l);
    match DecodeTurn(cfg, o, l)
    case Stop(_) => StopCovers(cfg, o, w0, l);
    case Again(m) =>
      if o.decodes(l.call) == 0 {
        assert EntryOk(w0.slots, w0.batch, l.i);
        var count := Min(l.nBatch, |l.work.batch| - l.i);
        ViewTurnIs(cfg, o, l, count);
        ViewKeepsCover(cfg, o, w0, l, count, m);
      }
      DecodeFromCovers(cfg, o, w0, m);
  }

  /** For every batch and every pattern of failures: the decoded views tile the batch from its beginning, all of
      it unless decoding fails for good, and every ready slot that was reached had exactly one turn, in a view
      that holds its entry and with the index of that entry in the view, or was ended before by a speculative step;
      the others had none. */
  lemma DecodeCoversBatchOnce(cfg: Config, o: Oracle, w0: Work)
    requires BatchOk(cfg, w0) && (cfg.hasDraft ==> AllInBudget(cfg, w0) && Paced(w0))
    ensures Covered(cfg, w0, DecodeFrom(cfg, o, Loop(w0, 0, cfg.nBatch, 0)))
  {
    StartOk(cfg, false, w0);
    DecodeFromCovers(cfg, o, w0, Loop(w0, 0, cfg.nBatch, 0));
  }
}
