/** A task that no slot has gets no result: what a call sends goes to the tasks of its slots. */
module Silence {
  import opened Wrappers
  import opened Slots
  import opened UpdateSlots
  import opened Replies
  import opened ReplySteps

  /** No slot has the task, and nothing was sent for it. */
  ghost predicate Silent(w: Work, id: int) {
    && Shaped(w) && RepliesTo(w.events, id) == []
    && forall k :: 0 <= k < |w.slots| ==> w.slots[k].idTask != id
  }

  lemma ActsSilently(w: Work, r: Work, j: nat, told: seq<Event>, id: int)
    requires Silent(w, id) && Acts(w, r, j, told)
    ensures Silent(r, id)
  {
    hide RepliesTo;
    RepliesConcat(w.events, told, id);
    NoReply(told, id);
  }

  lemma QuietIsSilent(w: Work, r: Work, j: nat, id: int)
    requires Silent(w, id) && QuietOrEnded(w, r, j)
    ensures Silent(r, id)
  {
    hide RepliesTo, Ends, EndsQuietly;
    if r.events == w.events {
      assert w.events + [] == w.events;
      ActsSilently(w, r, j, [], id);
    } else {
      var reply :| Ends(w, r, j, reply);
      EndsActs(w, r, j, reply);
      ActsSilently(w, r, j, [Released(j), Sent(w.slots[j].idTask, reply)], id);
    }
  }

  lemma EndsActs(w: Work, r: Work, j: nat, reply: Reply)
    requires QuietOrEnded(w, r, j) && Ends(w, r, j, reply)
    ensures Acts(w, r, j, [Released(j), Sent(w.slots[j].idTask, reply)])
  {
  }

  lemma {:induction false} ShiftIsSilent(cfg: Config, w: Work, j: nat, id: int)
    requires Silent(w, id) && j <= |w.slots|
    ensures Silent(ShiftFrom(cfg, w, j), id)
    decreases |w.slots| - j
  {
    hide RepliesTo, ShiftStep, QuietOrEnded;
    if j < |w.slots| {
      ShiftIsQuiet(cfg, w, j);
      QuietIsSilent(w, ShiftStep(cfg, w, j), j, id);
      ShiftIsSilent(cfg, ShiftStep(cfg, w, j), j + 1, id);
    }
  }

  lemma {:induction false} SampledIsSilent(w: Work, j: nat, id: int)
    requires Silent(w, id) && j <= |w.slots|
    ensures Silent(SampledFrom(w, j), id)
    decreases |w.slots| - j
  {
    hide RepliesTo, SampledStep, QuietOrEnded;
    if j < |w.slots| {
      SampledIsQuiet(w, j);
      QuietIsSilent(w, SampledStep(w, j), j, id);
      SampledIsSilent(SampledStep(w, j), j + 1, id);
    }
  }

  lemma BuiltIsSilent(cfg: Config, o: Oracle, w: Work, id: int)
    requires Silent(w, id)
    ensures Silent(BuiltFrom(cfg, o, w), id)
  {
    hide RepliesTo;
    var a := ShiftFrom(cfg, w, 0).(batch := [], logits := [], batched := None);
    ShiftIsSilent(cfg, w, 0, id);
    assert Silent(a, id);
    var b := SampledFrom(a, 0);
    SampledIsSilent(a, 0, id);
    assert BuiltFrom(cfg, o, w) == Prompts(cfg, o, b);
    hide BuiltFrom, ShiftFrom, SampledFrom, PromptTurn, Silent, QuietOrEnded;
    if cfg.contBatching || b.batch == [] {
      var inv := (v: Work, k: nat) => Silent(v, id);
      forall v: Work, k: nat | inv(v, k) && Shaped(v) && k < |v.slots|
        ensures inv(PromptTurn(cfg, o, v, k).work, k + 1)
      {
        TurnIsQuiet(cfg, o, v, k);
        QuietIsSilent(v, PromptTurn(cfg, o, v, k).work, k, id);
      }
      var _ := PromptsKeep(cfg, o, b, 0, PromptsFrom(cfg, o, b, 0), inv);
    }
  }

  lemma {:induction false} HandleIsSilent(cfg: Config, o: Oracle, call: nat, start: nat, count: nat, w: Work, j: nat,
                                          id: int)
    requires Silent(w, id) && j <= |w.slots|
    ensures Silent(HandleFrom(cfg, o, call, start, count, w, j), id)
    decreases |w.slots| - j
  {
    hide RepliesTo, HandleStep, Acts;
    if j < |w.slots| {
      var v := HandleStep(cfg, o, call, start, count, w, j);
      var told := HandleStepActs(cfg, o, call, start, count, w, j);
      ActsSilently(w, v, j, told, id);
      HandleIsSilent(cfg, o, call, start, count, v, j + 1, id);
    }
  }

  lemma {:induction false} SpeculateIsSilent(cfg: Config, o: Oracle, call: nat, w: Work, j: nat, id: int)
    requires Silent(w, id) && j <= |w.slots|
    ensures Silent(SpeculateFrom(cfg, o, call, w, j), id)
    decreases |w.slots| - j
  {
    hide RepliesTo, SpeculateStep, Acts;
    if j < |w.slots| {
      var v := SpeculateStep(cfg, o, call, w, j);
      var told := SpeculateStepActs(cfg, o, call, w, j);
      ActsSilently(w, v, j, told, id);
      SpeculateIsSilent(cfg, o, call, v, j + 1, id);
    }
  }

  lemma {:induction false} GiveUpIsSilent(w: Work, j: nat, id: int)
    requires Silent(w, id) && j <= |w.slots|
    ensures Silent(GiveUpFrom(w, j), id)
    decreases |w.slots| - j
  {
    hide RepliesTo, GiveUpOne, Acts;
    if j < |w.slots| {
      var told := GiveUpOneActs(w, j);
      ActsSilently(w, GiveUpOne(w, j), j, told, id);
      GiveUpIsSilent(GiveUpOne(w, j), j + 1, id);
    }
  }

  lemma ViewIsSilent(cfg: Config, o: Oracle, call: nat, start: nat, count: nat, w: Work, id: int)
    requires Silent(w, id) && start + count <= |w.batch|
    ensures Silent(ViewDone(cfg, o, call, start, count, w), id)
  {
    var d := ViewDecoded(w, start, count);
    assert Silent(d, id) by { assert (w.events + [Decoded(start, count)])[..|w.events|] == w.events; }
    hide RepliesTo, ViewDecoded, HandleFrom, SpeculateFrom;
    HandleIsSilent(cfg, o, call, start, count, d, 0, id);
    if cfg.hasDraft { SpeculateIsSilent(cfg, o, call, HandleFrom(cfg, o, call, start, count, d, 0), 0, id); }
  }

  lemma {:induction false} DecodeIsSilent(cfg: Config, o: Oracle, l: Loop, id: int)
    requires Silent(l.work, id) && l.nBatch >= 1
    ensures Silent(DecodeFrom(cfg, o, l).work, id)
    decreases |l.work.batch| - l.i, l.nBatch
  {
    assert Shaped(l.work);
    hide RepliesTo, Silent, ViewDone;
    match DecodeTurn(cfg, o, l)
    case Stop(_) => GiveUpIsSilent(l.work, 0, id);
    case Again(m) =>
      if o.decodes(l.call) == 0 {
        ViewIsSilent(cfg, o, l.call, l.i, Min(l.nBatch, |l.work.batch| - l.i), l.work, id);
      }
      DecodeIsSilent(cfg, o, m, id);
  }

  /** A call sends nothing for a task that no slot has, and gives it to none. */
  lemma UpdateIsSilent(cfg: Config, sv: Server, o: Oracle, id: int)
    requires Valid(sv) && forall k :: 0 <= k < |sv.slots| ==> sv.slots[k].idTask != id
    ensures var r := Update(cfg, sv, o);
            RepliesTo(r.events, id) == [] && forall k :: 0 <= k < |sv.slots| ==> r.server.slots[k].idTask != id
  {
    if !AllIdle(sv.slots) {
      BuiltIsSilent(cfg, o, Begun(sv), id);
      hide BuiltFrom, DecodeFrom, RepliesTo;
      DecodeIsSilent(cfg, o, Loop(BuiltFrom(cfg, o, Begun(sv)), 0, cfg.nBatch, 0), id);
    }
  }
}
