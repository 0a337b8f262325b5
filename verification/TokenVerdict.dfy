/** When a sampled token ends its task, and why: `process_token` read off the slot and the token. */
module TokenVerdict {
  import opened Wrappers
  import opened Utf8
  import opened StopWords
  import opened TextStream
  import opened Indentation
  import opened Slots

  /** The text is complete, and a stop word is hit in what was not sent of it. */
  predicate CompletesStop(t: TextState, piece: Text, words: seq<Text>) {
    var gen := t.gen + piece;
    Complete(gen) && StopHit(gen[Min(t.nSent, |gen|)..], words, |piece|, true).Some?
  }

  /** The text with the piece, up to a stop word that is hit. */
  function KeptText(t: TextState, piece: Text, words: seq<Text>): Text {
    var gen := t.gen + piece;
    if !CompletesStop(t, piece, words) then gen
    else gen[..Min(t.nSent, |gen|) + StopHit(gen[Min(t.nSent, |gen|)..], words, |piece|, true).value.pos]
  }

  /** The line at `from` has text, behind fewer than `nIndent` blanks. */
  ghost predicate IndentedTooLittle(gen: Text, from: nat, nIndent: int) {
    exists k :: from <= k < |gen| && k - from < nIndent && !Blank(gen[k]) && forall j :: from <= j < k ==> Blank(gen[j])
  }

  lemma CutExactly(t: TextState, nIndent: int)
    ensures LineCut(t, nIndent).Some? <==> t.lastNl > 0 && IndentedTooLittle(t.gen, t.lastNl, nIndent)
  {
    var n := Blanks(t.gen, t.lastNl);
    if t.lastNl > 0 && IndentedTooLittle(t.gen, t.lastNl, nIndent) {
      var k :| t.lastNl <= k < |t.gen| && k - t.lastNl < nIndent && !Blank(t.gen[k])
               && forall j :: t.lastNl <= j < k ==> Blank(t.gen[j]);
      assert k == t.lastNl + n;
    }
    if LineCut(t, nIndent).Some? { assert !Blank(t.gen[t.lastNl + n]); }
  }

  // ------------------------------------------------------------------ the reasons to stop

  /** The limit of generated tokens that applies is reached: the task's own, or else the server's. */
  predicate OutOfBudget(cfg: Config, s: Slot) {
    if s.params.nPredict != -1 then s.nDecoded >= s.params.nPredict
    else cfg.nPredict != -1 && s.nDecoded >= cfg.nPredict
  }

  /** No limit is set, and prompt and answer are as long as the model was trained for. */
  predicate OutOfTraining(cfg: Config, s: Slot) {
    s.params.nPredict < 1 && cfg.nPredict < 1 && s.nPromptTokens + s.nDecoded >= cfg.nCtxTrain
  }

  /** Behind the first line, the time is up. */
  predicate OutOfTime(s: Slot, smp: Sample) { s.text.hasNewLine && smp.late }

  /** Behind the first line, a line is indented too little. */
  ghost predicate OutOfBlock(s: Slot, smp: Sample) {
    && s.text.hasNewLine && s.params.nIndent > 0 && s.text.lastNl > 0
    && IndentedTooLittle(KeptText(s.text, smp.piece, s.params.stops), s.text.lastNl, s.params.nIndent)
  }

  // ------------------------------------------------------------------ one stage after the other

  lemma AcceptVerdict(t: TextState, piece: Text, words: seq<Text>)
    ensures var u := Accept(t, piece, words).text;
            && (u.hasNext <==> !CompletesStop(t, piece, words))
            && u.stop == (if CompletesStop(t, piece, words) then Word else t.stop)
            && u.gen == KeptText(t, piece, words) && u.hasNewLine == t.hasNewLine && u.lastNl == t.lastNl
  {
    hide Complete, StopHit;
  }

  lemma LinesVerdict(t: TextState, nIndent: int, late: bool, shown: Text)
    ensures var u := LinesChecked(t, nIndent, late, shown);
            var timed := t.hasNewLine && late;
            var cut := t.hasNewLine && nIndent > 0 && t.lastNl > 0 && IndentedTooLittle(t.gen, t.lastNl, nIndent);
            && (u.hasNext <==> t.hasNext && !timed && !cut)
            && u.stop == if timed || cut then Limit else t.stop
  {
    CutExactly(t, nIndent);
    hide LineCut, IndentedTooLittle, Find;
  }

  /** For every slot that generates and every token: what ends the task, and with which reason. */
  lemma TokenStopsExactly(cfg: Config, s: Slot, smp: Sample)
    requires s.nDecoded >= 1
    ensures var t := ProcessToken(cfg, s, smp).slot;
            var hit := CompletesStop(s.text, smp.piece, s.params.stops);
            var full := s.nPast >= cfg.nCtx;
            var limited := OutOfTime(s, smp) || OutOfBlock(s, smp);
            && (t.text.hasNext
                <==> !smp.eog && !hit && !full && !limited && !OutOfBudget(cfg, s) && !OutOfTraining(cfg, s))
            && (t.text.hasNext ==> t.text.stop == s.text.stop)
            && (!t.text.hasNext ==>
                  t.text.stop == if OutOfTraining(cfg, s) then Limit else if smp.eog then Eos
                                 else if hit && !full && !limited then Word else Limit)
            && (t.truncated <==> s.truncated || full || OutOfTraining(cfg, s))
            && t == s.(sampled := smp.tok, text := t.text, truncated := t.truncated, nRemaining := t.nRemaining)
  {
    var a := Accept(s.text, smp.piece, s.params.stops);
    var b := BudgetChecked(cfg, s.(sampled := smp.tok, text := a.text));
    AcceptVerdict(s.text, smp.piece, s.params.stops);
    assert b.text.hasNext <==> a.text.hasNext && !OutOfBudget(cfg, s);
    assert b.text.stop == if a.text.hasNext && OutOfBudget(cfg, s) then Limit else a.text.stop;
    LinesVerdict(b.text, s.params.nIndent, smp.late, a.shown);
    hide Accept, LinesChecked, KeptText, CompletesStop, IndentedTooLittle;
  }

  /** What is sent at once: nothing unless the client asked for a stream and the text is complete, and then what became
      safe to show of the text. */
  lemma TokenShowsExactly(cfg: Config, s: Slot, smp: Sample)
    requires s.text.nSent <= |s.text.gen|
    ensures var out, gen := ProcessToken(cfg, s, smp).out, s.text.gen + smp.piece;
            && (out.Some? <==> s.params.stream && Complete(gen))
            && (out.Some? ==>
                  out.value == if CompletesStop(s.text, smp.piece, s.params.stops)
                               then KeptText(s.text, smp.piece, s.params.stops)[s.text.nSent..]
                               else if exists p :: 0 <= p && BeginsStop(gen[s.text.nSent..], s.params.stops, p) then []
                               else gen[s.text.nSent..])
  {
    var gen := s.text.gen + smp.piece;
    BeginsStopIsHeldBack(gen[s.text.nSent..], s.params.stops, |smp.piece|);
    hide StopHit, BeginsStop, LimitsChecked, BudgetChecked;
  }
}
