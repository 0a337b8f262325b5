/** The decode-retry loop read off the return codes of `llama_decode` alone: which calls are made, with which views, and
    when the loop gives up. */
module RetryLoop {
  import opened Wrappers
  import opened Slots
  import opened UpdateSlots
  import opened DecodeLoop
  import opened DecodeCoverage

  /** How many of the first `c` calls failed. */
  function Failures(o: Oracle, c: nat): nat {
    if c == 0 then 0 else Failures(o, c - 1) + if o.decodes(c - 1) != 0 then 1 else 0
  }

  /** `n` halved `k` times, rounded down. */
  function Halved(n: nat, k: nat): nat { if k == 0 then n else Halved(n, k - 1) / 2 }

  /** The view size of call `c`: the start size, halved once per failed call before. */
  function SizeOf(o: Oracle, n: nat, c: nat): nat { Halved(n, Failures(o, c)) }

  /** The entry that call `c` starts at: the successful calls before it have passed as many as they had, each the
      smaller of its size and of what was left. */
  function StartOf(o: Oracle, n: nat, total: nat, c: nat): (at: nat)
    ensures at <= total
  {
    if c == 0 then 0 else
    var at := StartOf(o, n, total, c - 1);
    if o.decodes(c - 1) != 0 then at else at + Min(SizeOf(o, n, c - 1), total - at)
  }

  /** The views of the successful ones among the first `c` calls. */
  function ViewsOf(o: Oracle, n: nat, total: nat, c: nat): seq<View> {
    if c == 0 then [] else
    var at, front := StartOf(o, n, total, c - 1), ViewsOf(o, n, total, c - 1);
    if o.decodes(c - 1) != 0 then front else front + [View(at, Min(SizeOf(o, n, c - 1), total - at))]
  }

  /** A failure that is final: an error code, or no room with views of one entry. */
  predicate FailsForGood(o: Oracle, n: nat, c: nat) {
    o.decodes(c) < 0 || (o.decodes(c) != 0 && SizeOf(o, n, c) == 1)
  }

  /** Call `c` is made: entries are left, and no call before it failed for good. */
  ghost predicate IsMade(o: Oracle, n: nat, total: nat, c: nat) {
    StartOf(o, n, total, c) < total && forall j: nat :: j < c ==> !FailsForGood(o, n, j)
  }

  lemma {:induction false} StartGrows(o: Oracle, n: nat, total: nat, a: nat, b: nat)
    requires a <= b
    ensures StartOf(o, n, total, a) <= StartOf(o, n, total, b)
    decreases b - a
  {
    if a < b { StartGrows(o, n, total, a, b - 1); }
  }

  /** The loop comes to an end before call `c`, which is not made, or which failed for good. */
  ghost predicate EndsAt(cfg: Config, o: Oracle, w0: Work, r: Outcome, c: nat) {
    var n, total := cfg.nBatch, |w0.batch|;
    && |w0.events| <= |r.work.events|
    && (forall j: nat :: j < c ==> IsMade(o, n, total, j) && !FailsForGood(o, n, j))
    && (if r.fatal then IsMade(o, n, total, c) && FailsForGood(o, n, c) && r.at == StartOf(o, n, total, c)
        else StartOf(o, n, total, c) == total)
    && Views(r.work.events, |w0.events|) == ViewsOf(o, n, total, c)
  }

  /** The loop before call `l.call`. */
  ghost predicate OnTheWay(cfg: Config, o: Oracle, w0: Work, l: Loop) {
    match l
    case Loop(w, at, size, c) =>
      && Shaped(w) && w.batch == w0.batch && size >= 1 && size == SizeOf(o, cfg.nBatch, c)
      && at == StartOf(o, cfg.nBatch, |w0.batch|, c) && |w0.events| <= |w.events|
      && (forall j: nat :: j < c ==> IsMade(o, cfg.nBatch, |w0.batch|, j) && !FailsForGood(o, cfg.nBatch, j))
      && Views(w.events, |w0.events|) == ViewsOf(o, cfg.nBatch, |w0.batch|, c)
  }

  // ------------------------------------------------------------------ one turn

  /** What a view tells after it was decoded is no view. */
  lemma ViewShows(cfg: Config, o: Oracle, w0: Work, l: Loop, count: nat, m: Loop)
    requires NextView(cfg, o, l, count, m) && |w0.events| <= |l.work.events|
    ensures |w0.events| <= |m.work.events|
    ensures Views(m.work.events, |w0.events|) == Views(l.work.events, |w0.events|) + [View(l.i, count)]
  {
    var d, from := ViewDecoded(l.work, l.i, count), |w0.events|;
    OneEvent(l.work.events, from, Decoded(l.i, count), 0);
    hide ViewDecoded, HandleFrom, SpeculateFrom, Views;
    HandleShows(cfg, o, l.call, l.i, count, d, 0, from);
    if cfg.hasDraft { SpeculateShows(cfg, o, l.call, HandleFrom(cfg, o, l.call, l.i, count, d, 0), 0, from); }
  }

  lemma {:induction false} HandleShows(cfg: Config, o: Oracle, call: nat, start: nat, count: nat, w: Work, i: nat,
        from: nat)
    requires Shaped(w) && i <= |w.slots| && from <= |w.events|
    ensures var r := HandleFrom(cfg, o, call, start, count, w, i);
            from <= |r.events| && Views(r.events, from) == Views(w.events, from)
    decreases |w.slots| - i
  {
    if i < |w.slots| {
      HandleStepShows(cfg, o, call, start, count, w, i, from);
      hide HandleStep, Views;
      HandleShows(cfg, o, call, start, count, HandleStep(cfg, o, call, start, count, w, i), i + 1, from);
    }
  }

  lemma HandleStepShows(cfg: Config, o: Oracle, call: nat, start: nat, count: nat, w: Work, i: nat, from: nat)
    requires Shaped(w) && i < |w.slots| && from <= |w.events|
    ensures var r := HandleStep(cfg, o, call, start, count, w, i);
            from <= |r.events| && Views(r.events, from) == Views(w.events, from)
  {
    var s := w.slots[i];
    hide HandleStep, DrawToken, Views;
    if !InView(s, start, count) || (s.phase != DonePrompt && s.phase != Generating) {
      QuietStep(cfg, o, call, start, count, w, i);
    } else if s.phase == DonePrompt && NonCausal(s) {
      EarlyStep(cfg, o, call, start, count, w, i);
      OtherEvents(w.events, from, EarlyEvents(s, i), |w.slots|);
    } else {
      DrawnStep(cfg, o, call, start, count, w, i);
      SampledTurns(cfg, w, i, s.iBatch - start, o.samples(call, i), from, 0);
    }
  }

  lemma {:induction false} SpeculateShows(cfg: Config, o: Oracle, call: nat, w: Work, i: nat, from: nat)
    requires Shaped(w) && i <= |w.slots| && from <= |w.events|
    ensures var r := SpeculateFrom(cfg, o, call, w, i);
            from <= |r.events| && Views(r.events, from) == Views(w.events, from)
    decreases |w.slots| - i
  {
    if i < |w.slots| { SpeculateTurns(cfg, o, call, w, i, from, 0); }
  }

  lemma SuccessGoesOn(cfg: Config, o: Oracle, w0: Work, l: Loop)
    requires OnTheWay(cfg, o, w0, l) && l.i < |w0.batch| && o.decodes(l.call) == 0
    ensures DecodeTurn(cfg, o, l).Again? && OnTheWay(cfg, o, w0, DecodeTurn(cfg, o, l).loop)
  {
    var count := Min(l.nBatch, |l.work.batch| - l.i);
    ViewTurnIs(cfg, o, l, count);
    var m := DecodeTurn(cfg, o, l).loop;
    hide DecodeTurn, ViewDone, Views;
    ViewShows(cfg, o, w0, l, count, m);
  }

  lemma FailureGoesOn(cfg: Config, o: Oracle, w0: Work, l: Loop)
    requires OnTheWay(cfg, o, w0, l) && l.i < |w0.batch| && o.decodes(l.call) != 0
    requires !FailsForGood(o, cfg.nBatch, l.call)
    ensures DecodeTurn(cfg, o, l).Again? && OnTheWay(cfg, o, w0, DecodeTurn(cfg, o, l).loop)
  {
    hide Views, GiveUpFrom;
  }

  lemma GivingUpEnds(cfg: Config, o: Oracle, w0: Work, l: Loop)
    requires OnTheWay(cfg, o, w0, l) && l.i < |w0.batch| && FailsForGood(o, cfg.nBatch, l.call)
    ensures DecodeTurn(cfg, o, l).Stop? && EndsAt(cfg, o, w0, DecodeTurn(cfg, o, l).outcome, l.call)
  {
    hide Views, GiveUpFrom;
    GiveUpTakesNoTurn(l.work, 0, |w0.events|, 0);
  }

  lemma {:induction false} LoopEndsAt(cfg: Config, o: Oracle, w0: Work, l: Loop) returns (c: nat)
    requires OnTheWay(cfg, o, w0, l)
    ensures EndsAt(cfg, o, w0, DecodeFrom(cfg, o, l), c)
    decreases |l.work.batch| - l.i, l.nBatch
  {
    if l.i >= |w0.batch| {
      c := l.call;
    } else if FailsForGood(o, cfg.nBatch, l.call) {
      GivingUpEnds(cfg, o, w0, l);
      c := l.call;
    } else {
      if o.decodes(l.call) == 0 { SuccessGoesOn(cfg, o, w0, l); } else { FailureGoesOn(cfg, o, w0, l); }
      hide OnTheWay, EndsAt;
      assert DecodeTurn(cfg, o, l).Again?;
      var m := DecodeTurn(cfg, o, l).loop;
      hide DecodeTurn;
      c := LoopEndsAt(cfg, o, w0, m);
    }
  }

  // ------------------------------------------------------------------ the loop

  /** For every batch and all return codes: the loop gives up exactly if some call that is made fails for good, which is
      a negative code, or any failure at a view size of one; the size is `n_batch`, halved once per failure before. The
      decoded views are those of the successful calls, each as long as the smaller of its size and of what was left. */
  lemma RetriesExactly(cfg: Config, o: Oracle, w0: Work)
    requires Shaped(w0)
    ensures var r := DecodeFrom(cfg, o, Loop(w0, 0, cfg.nBatch, 0));
            && (r.fatal <==> exists c: nat :: IsMade(o, cfg.nBatch, |w0.batch|, c) && FailsForGood(o, cfg.nBatch, c))
            && exists c: nat :: EndsAt(cfg, o, w0, r, c)
  {
    var l, n, total := Loop(w0, 0, cfg.nBatch, 0), cfg.nBatch, |w0.batch|;
    assert Views(w0.events, |w0.events|) == [];
    var r := DecodeFrom(cfg, o, l);
    var c := LoopEndsAt(cfg, o, w0, l);
    hide DecodeFrom;
    if !r.fatal {
      forall b: nat ensures !(IsMade(o, n, total, b) && FailsForGood(o, n, b)) {
        if c <= b { StartGrows(o, n, total, c, b); }
      }
    }
  }
}
