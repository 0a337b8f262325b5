/** What a client is told of its task, from launch to release: the partial contents and the content of the final result
    are the text of the run over the tokens that the library gave for the task, in a stream or at once. For any answers
    of the library, also if decoding fails for good. */
module Replies {
  import opened Wrappers
  import opened Utf8
  import opened TextStream
  import opened Indentation
  import opened Slots
  import opened Speculation

  // ------------------------------------------------------------------ results of a task

  function ReplyIn(e: Event, task: int): seq<Reply> { if e.Sent? && e.task == task then [e.reply] else [] }

  /** The results that were sent for a task, in order. */
  function RepliesTo(events: seq<Event>, task: int): seq<Reply> {
    if events == [] then [] else RepliesTo(events[..|events| - 1], task) + ReplyIn(events[|events| - 1], task)
  }

  lemma RepliesAppend(events: seq<Event>, e: Event, task: int)
    ensures RepliesTo(events + [e], task) == RepliesTo(events, task) + ReplyIn(e, task)
  {
    assert (events + [e])[..|events|] == events;
  }

  lemma {:induction false} RepliesConcat(a: seq<Event>, b: seq<Event>, task: int)
    ensures RepliesTo(a + b, task) == RepliesTo(a, task) + RepliesTo(b, task)
    decreases |b|
  {
    if b == [] {
      assert a + b == a;
    } else {
      var front, e := b[..|b| - 1], b[|b| - 1];
      hide RepliesTo, ReplyIn;
      assert b == front + [e] && a + b == a + front + [e];
      RepliesAppend(front, e, task);
      RepliesAppend(a + front, e, task);
      RepliesConcat(a, front, task);
    }
  }

  lemma {:induction false} NoReply(events: seq<Event>, task: int)
    requires forall e :: e in events && e.Sent? ==> e.task != task
    ensures RepliesTo(events, task) == []
    decreases |events|
  {
    if events != [] { NoReply(events[..|events| - 1], task); }
  }

  /** The partial contents joined together. */
  function PartialText(replies: seq<Reply>): Text {
    if replies == [] then [] else
    var last := replies[|replies| - 1];
    PartialText(replies[..|replies| - 1]) + if last.Partial? then last.content else []
  }

  /** The contents of final results joined together. */
  function FinalText(replies: seq<Reply>): Text {
    if replies == [] then [] else
    var last := replies[|replies| - 1];
    FinalText(replies[..|replies| - 1]) + if last.Final? then last.content else []
  }

  predicate HasPartial(replies: seq<Reply>) { exists r :: r in replies && r.Partial? }
  predicate HasFinal(replies: seq<Reply>) { exists r :: r in replies && r.Final? }

  lemma OneReply(replies: seq<Reply>, r: Reply)
    ensures var all := replies + [r];
            && PartialText(all) == PartialText(replies) + (if r.Partial? then r.content else [])
            && FinalText(all) == FinalText(replies) + (if r.Final? then r.content else [])
            && (HasPartial(all) <==> HasPartial(replies) || r.Partial?)
            && (HasFinal(all) <==> HasFinal(replies) || r.Final?)
            && (Embeddings in all <==> Embeddings in replies || r == Embeddings)
            && (Score in all <==> Score in replies || r == Score)
  {
    assert (replies + [r])[..|replies|] == replies;
    assert r in replies + [r];
    assert forall x :: x in replies ==> x in replies + [r];
  }

  // ------------------------------------------------------------------ the run of a task

  /** The text after some tokens of a task, and what a stream has carried of it. */
  function TaskRun(p: Params, smps: seq<Sample>): Run {
    if smps == [] then Run(START, []) else
    var run, smp := TaskRun(p, smps[..|smps| - 1]), smps[|smps| - 1];
    var a := Accept(run.text, smp.piece, p.stops);
    Run(TokenText(run.text, p, smp), run.sent + if a.out.Some? then a.out.value else [])
  }

  /** No token but the last one ends the run. */
  ghost predicate OnlyLastEnds(p: Params, smps: seq<Sample>) {
    forall n :: 0 <= n < |smps| ==> TaskRun(p, smps[..n]).text.hasNext
  }

  /** The results of a task are those of its run: the partial contents are what a stream carries and come with a stream
      only, a final result has the content of the run's end, and embeddings and scores go to those who want them. */
  ghost predicate Carried(replies: seq<Reply>, task: Task, smps: seq<Sample>) {
    var run, stream := TaskRun(task.params, smps), task.params.stream;
    && (HasPartial(replies) ==> stream)
    && PartialText(replies) == (if stream then run.sent else [])
    && FinalText(replies) == (if HasFinal(replies) && !stream then run.text.gen else [])
    && (Embeddings in replies ==> task.kind == Embedding) && (Score in replies ==> task.kind == Rerank)
    && OnlyLastEnds(task.params, smps)
  }

  /** And slot `s` has the task, with the limit of generated tokens cut to the server's; while it is busy there was no
      final result, and it has the run's text. */
  ghost predicate Carries(cfg: Config, s: Slot, replies: seq<Reply>, task: Task, smps: seq<Sample>) {
    var run, p := TaskRun(task.params, smps), task.params;
    var limit := if cfg.nPredict > 0 && p.nPredict > cfg.nPredict then cfg.nPredict else p.nPredict;
    && Carried(replies, task, smps)
    && s.kind == task.kind && s.params == p.(nKeep := s.params.nKeep, nPredict := limit)
    && (Processing(s) ==> !HasFinal(replies) && run.text.hasNext && s.text.(hasNext := true) == run.text)
  }

  /** Nothing is sent, and the slot keeps task and text. */
  predicate SameOrder(s: Slot, t: Slot) {
    t.idTask == s.idTask && t.kind == s.kind && t.text == s.text && t.params == s.params.(nKeep := t.params.nKeep)
  }

  lemma CarriesQuiet(cfg: Config, s: Slot, t: Slot, replies: seq<Reply>, task: Task, smps: seq<Sample>)
    requires Carries(cfg, s, replies, task, smps) && SameOrder(s, t) && (Processing(t) ==> Processing(s))
    ensures Carries(cfg, t, replies, task, smps)
  {
    hide TaskRun, PartialText, FinalText, OnlyLastEnds;
  }

  /** An answer that ends the task without a token more. */
  predicate EndsQuietly(s: Slot, reply: Reply) {
    match reply
    case Error(_) => true
    case Embeddings => s.kind == Embedding
    case Score => s.kind == Rerank
    case Final(content, _, _) => Processing(s) && content == FinalContent(s.text, s.params.stream)
    case Partial(_) => false
  }

  lemma CarriesEnd(cfg: Config, s: Slot, t: Slot, replies: seq<Reply>, task: Task, smps: seq<Sample>, reply: Reply)
    requires Carries(cfg, s, replies, task, smps) && SameOrder(s, t) && !Processing(t) && EndsQuietly(s, reply)
    ensures Carries(cfg, t, replies + [reply], task, smps)
  {
    OneReply(replies, reply);
    hide TaskRun, PartialText, FinalText, OnlyLastEnds, HasFinal, HasPartial;
  }

  // ------------------------------------------------------------------ one token

  /** A partial result, if there is something to show. */
  function Shown(p: Processed): seq<Reply> { if p.out.Some? then [Partial(p.out.value)] else [] }

  /** The final result, if the token is the last one. */
  function Closing(p: Processed): seq<Reply> {
    if p.slot.text.hasNext then []
    else [Final(if p.slot.params.stream then [] else p.slot.text.gen, p.slot.text.stop, p.slot.nDecoded)]
  }

  lemma StoppedLines(t: TextState, nIndent: int, late: bool, shown: Text)
    ensures LinesChecked(Stopped(t, Limit), nIndent, late, shown).gen == LinesChecked(t, nIndent, late, shown).gen
  {
    hide Blanks;
  }

  /** What a token makes of the text, up to whether and why it ends. */
  lemma ProcessedText(cfg: Config, s: Slot, smp: Sample, run: Run)
    requires s.nDecoded >= 1 && s.text.(hasNext := true) == run.text
    ensures var a, p := Accept(run.text, smp.piece, s.params.stops), ProcessToken(cfg, s, smp);
            var next := TokenText(run.text, s.params, smp);
            && SameRun(s, p.slot) && p.slot.nDecoded == s.nDecoded && p.slot.phase == s.phase
            && p.slot.text.gen == next.gen && (p.slot.text.hasNext ==> p.slot.text == next)
            && p.out == (if s.params.stream then a.out else None)
  {
    var a := Accept(run.text, smp.piece, s.params.stops);
    assert Accept(s.text, smp.piece, s.params.stops) == a by { hide Complete, Showing; }
    ProcessTokenStops(cfg, s, smp);
    StoppedLines(a.text, s.params.nIndent, smp.late, a.shown);
    LimitsOnlyStop(a.text, s.params.nIndent, smp.late, a.shown);
    LimitsOnlyStop(Stopped(a.text, Limit), s.params.nIndent, smp.late, a.shown);
    hide Accept, LinesChecked;
  }

  lemma RunGrows(p: Params, smps: seq<Sample>, smp: Sample)
    requires OnlyLastEnds(p, smps) && TaskRun(p, smps).text.hasNext
    ensures OnlyLastEnds(p, smps + [smp])
    ensures var run := TaskRun(p, smps);
            var a := Accept(run.text, smp.piece, p.stops);
            TaskRun(p, smps + [smp]) == Run(TokenText(run.text, p, smp),
                                            run.sent + if a.out.Some? then a.out.value else [])
  {
    var all := smps + [smp];
    assert all[..|smps|] == smps;
    forall n | 0 <= n < |all| ensures TaskRun(p, all[..n]).text.hasNext {
      assert all[..n] == smps[..n];
      if n == |smps| { assert smps[..n] == smps; }
    }
  }

  /** The slot when a token is concluded: it goes on, or it is released. */
  function After(p: Processed): Slot { if p.slot.text.hasNext then p.slot else Release(p.slot) }

  lemma ShownCarries(replies: seq<Reply>, p: Processed)
    ensures var all := replies + Shown(p);
            && PartialText(all) == PartialText(replies) + (if p.out.Some? then p.out.value else [])
            && FinalText(all) == FinalText(replies)
            && (HasPartial(all) <==> HasPartial(replies) || p.out.Some?) && (HasFinal(all) <==> HasFinal(replies))
            && (Embeddings in all <==> Embeddings in replies) && (Score in all <==> Score in replies)
  {
    hide PartialText, FinalText, HasPartial, HasFinal;
    if p.out.Some? { OneReply(replies, Partial(p.out.value)); } else { assert replies + [] == replies; }
  }

  lemma ClosingCarries(replies: seq<Reply>, p: Processed)
    ensures var all := replies + Closing(p);
            && PartialText(all) == PartialText(replies)
            && FinalText(all)
               == FinalText(replies) + (if p.slot.text.hasNext || p.slot.params.stream then [] else p.slot.text.gen)
            && (HasPartial(all) <==> HasPartial(replies))
            && (HasFinal(all) <==> HasFinal(replies) || !p.slot.text.hasNext)
            && (Embeddings in all <==> Embeddings in replies) && (Score in all <==> Score in replies)
  {
    hide PartialText, FinalText, HasPartial, HasFinal;
    if p.slot.text.hasNext { assert replies + [] == replies; } else { OneReply(replies, Closing(p)[0]); }
  }

  lemma CarriedToken(replies: seq<Reply>, task: Task, smps: seq<Sample>, smp: Sample, p: Processed, more: Run)
    requires Carried(replies, task, smps) && !HasFinal(replies) && OnlyLastEnds(task.params, smps + [smp])
    requires TaskRun(task.params, smps + [smp]) == more && p.slot.params.stream == task.params.stream
    requires var was := TaskRun(task.params, smps).sent;
             && (task.params.stream ==> more.sent == was + if p.out.Some? then p.out.value else [])
             && (p.out.Some? ==> task.params.stream)
    requires p.slot.text.gen == more.text.gen
    ensures Carried(replies + Shown(p) + Closing(p), task, smps + [smp])
  {
    hide TaskRun, PartialText, FinalText, OnlyLastEnds, HasFinal, HasPartial, Shown, Closing;
    ShownCarries(replies, p);
    ClosingCarries(replies + Shown(p), p);
  }

  lemma ClosingIsFinal(replies: seq<Reply>, p: Processed)
    ensures p.slot.text.hasNext && !HasFinal(replies) ==> !HasFinal(replies + Shown(p) + Closing(p))
  {
    hide HasFinal, HasPartial, PartialText, FinalText;
    ShownCarries(replies, p);
    ClosingCarries(replies + Shown(p), p);
  }

  lemma CarriesToken(cfg: Config, s: Slot, replies: seq<Reply>, task: Task, smps: seq<Sample>, smp: Sample)
    requires Carries(cfg, s, replies, task, smps) && Processing(s) && s.nDecoded >= 1
    ensures var p := ProcessToken(cfg, s, smp);
            Carries(cfg, After(p), replies + Shown(p) + Closing(p), task, smps + [smp])
  {
    hide OnlyLastEnds, PartialText, FinalText, HasFinal, HasPartial, Shown, Closing, TaskRun;
    var p, run := ProcessToken(cfg, s, smp), TaskRun(task.params, smps);
    ProcessedText(cfg, s, smp, run);
    RunGrows(task.params, smps, smp);
    hide ProcessToken, Accept, LinesChecked;
    CarriedToken(replies, task, smps, smp, p, TaskRun(task.params, smps + [smp]));
    ClosingIsFinal(replies, p);
  }
}
