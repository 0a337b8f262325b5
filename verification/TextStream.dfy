/** The text side of `server_context::process_token`: every sampled token brings a piece of text, which
    is searched for stop words, sent on, or held back. */
module TextStream {
  import opened Wrappers
  import opened Utf8
  import opened StopWords

  datatype StopType = NoStop | Eos | Word | Limit

  /** `generated_text`, `n_sent_text`, `has_next_token`, `stop`, `stopping_word`, `has_new_line` and `last_nl_pos` of a
      slot. */
  datatype TextState = TextState(gen: Text, nSent: nat, hasNext: bool, stop: StopType, stoppingWord: Text,
    hasNewLine: bool, lastNl: nat)

  const START := TextState([], 0, true, NoStop, [], false, 0)

  function Stopped(t: TextState, why: StopType): TextState { t.(stop := why, hasNext := false) }

  /** A state, what a partial response would carry (none for a skipped token), and `text_to_send`. */
  datatype Accepted = Accepted(text: TextState, out: Option<Text>, shown: Text)

  predicate Complete(text: Text) { Validate(text) == |text| }

  /** What the search makes of a text that is complete: lines 2043 to 2067 of server.hpp. */
  function Showing(t: TextState, words: seq<Text>, last: nat): (TextState, Text) {
    var pos := Min(t.nSent, |t.gen|);
    var hit := StopHit(t.gen[pos..], words, last, true);
    if hit.Some? then
      var cut := t.gen[..pos + hit.value.pos];
      var from := Min(t.nSent, |cut|);
      (t.(gen := cut, nSent := t.nSent + |cut| - from, hasNext := false, stop := Word,
        stoppingWord := words[hit.value.word]), cut[from..])
    else if t.hasNext && StopHit(t.gen[pos..], words, last, false).Some? then (t, [])
    else (t.(nSent := t.nSent + |t.gen| - pos), t.gen[pos..])
  }

  /** One token: lines 2030 to 2077 of server.hpp. */
  function Accept(s: TextState, piece: Text, words: seq<Text>): Accepted {
    var t := s.(gen := s.gen + piece, hasNext := true);
    if !Complete(t.gen) then Accepted(t, None, piece) else
    var (u, shown) := Showing(t, words, |piece|);
    Accepted(u, Some(shown), shown)
  }

  /** A slot's text after some tokens, with all partial contents so far joined together. */
  datatype Run = Run(text: TextState, sent: Text)

  function Extend(run: Run, piece: Text, words: seq<Text>): Run {
    if !run.text.hasNext then run else
    var a := Accept(run.text, piece, words);
    Run(a.text, run.sent + if a.out.Some? then a.out.value else [])
  }

  /** The run over a list of pieces; once a stop word is found the rest is not generated. A run that
      ends for another reason (a limit, an end token) is a run over fewer pieces. */
  function Generate(pieces: seq<Text>, words: seq<Text>): Run {
    if pieces == [] then Run(START, [])
    else Extend(Generate(pieces[..|pieces| - 1], words), pieces[|pieces| - 1], words)
  }

  function Concat(pieces: seq<Text>): Text {
    if pieces == [] then [] else Concat(pieces[..|pieces| - 1]) + pieces[|pieces| - 1]
  }

  /** The text in the final response: in a stream it is left empty, as the partial ones have carried it. */
  function FinalContent(t: TextState, stream: bool): Text { if stream then [] else t.gen }

  /** All the text that a client gets of a run that ends here. */
  function ClientText(run: Run, stream: bool): Text {
    (if stream then run.sent else []) + FinalContent(run.text, stream)
  }

  // ------------------------------------------------------------------ what was sent

  ghost predicate SentOk(run: Run) {
    && run.text.nSent <= |run.text.gen|
    && run.sent == run.text.gen[..run.text.nSent]
    && (!run.text.hasNext ==> run.text.nSent == |run.text.gen|)
  }

  /** What one token can do to the text: it keeps what was sent, and sends on what follows. */
  lemma AcceptShape(s: TextState, piece: Text, words: seq<Text>)
    requires s.nSent <= |s.gen|
    ensures var a := Accept(s, piece, words);
            var t := a.text;
            && s.nSent <= t.nSent <= |t.gen|
            && t.gen <= s.gen + piece
            && t.gen[s.nSent..t.nSent] == (if a.out.Some? then a.out.value else [])
            && (!t.hasNext ==> t.nSent == |t.gen|)
  {
  }

  lemma PrefixGoesOn(gen: Text, piece: Text, more: Text, n: nat, m: nat)
    requires n <= |gen| && n <= m <= |more| && more <= gen + piece
    ensures more[..m] == gen[..n] + more[n..m]
  {
    assert more[..n] == (gen + piece)[..n] == gen[..n];
  }

  lemma ExtendKeepsSent(run: Run, piece: Text, words: seq<Text>)
    requires SentOk(run)
    ensures SentOk(Extend(run, piece, words))
  {
    if run.text.hasNext {
      AcceptShape(run.text, piece, words);
      hide Accept;
      var t := Accept(run.text, piece, words).text;
      PrefixGoesOn(run.text.gen, piece, t.gen, run.text.nSent, t.nSent);
    }
  }

  /** Whatever is generated and whatever the stop words are, the partial contents joined together are the
      first `n_sent_text` bytes of the text, and all of it when the run ends on a stop word. */
  lemma {:induction false} SentIsPrefix(pieces: seq<Text>, words: seq<Text>)
    ensures SentOk(Generate(pieces, words))
  {
    if pieces != [] {
      SentIsPrefix(pieces[..|pieces| - 1], words);
      ExtendKeepsSent(Generate(pieces[..|pieces| - 1], words), pieces[|pieces| - 1], words);
    }
  }

  // ------------------------------------------------------------------ what is held back

  /** From `p` on the text is a beginning of a stop word. */
  predicate BeginsStop(gen: Text, words: seq<Text>, p: nat) {
    p < |gen| && exists i :: 0 <= i < |words| && |gen| - p <= |words[i]| && gen[p..] == words[i][..|gen| - p]
  }

  /** No stop word can still begin in what was sent, and text is sent only when it is complete. */
  ghost predicate Safe(s: TextState, words: seq<Text>) {
    && s.nSent <= |s.gen|
    && (forall p :: 0 <= p < s.nSent ==> !BeginsStop(s.gen, words, p))
    && (s.nSent == |s.gen| ==> Complete(s.gen))
  }

  lemma BeginsStopIsHeldBack(test: Text, words: seq<Text>, last: nat)
    ensures StopHit(test, words, last, false).Some? <==> exists p :: 0 <= p && BeginsStop(test, words, p)
  {
    EarliestOfIsFirst(test, words, last, false, |words|);
    var hit := StopHit(test, words, last, false);
    if hit.Some? {
      var i, p := hit.value.word, hit.value.pos;
      PartialIsLongest(words[i], test, |words[i]|);
      assert BeginsStop(test, words, p);
    }
    if exists p :: 0 <= p && BeginsStop(test, words, p) {
      var p :| 0 <= p && BeginsStop(test, words, p);
      var i :| 0 <= i < |words| && |test| - p <= |words[i]| && test[p..] == words[i][..|test| - p];
      PartialIsLongest(words[i], test, |words[i]|);
      assert HeldBack(words[i], test, |test| - p);
      assert Search(test, words[i], last, false).Some?;
    }
  }

  /** Appending text never makes a new place begin a stop word. */
  lemma BeginsStopShrinks(gen: Text, piece: Text, words: seq<Text>, p: nat)
    requires p < |gen| && BeginsStop(gen + piece, words, p)
    ensures BeginsStop(gen, words, p)
  {
    var all := gen + piece;
    var i :| 0 <= i < |words| && |all| - p <= |words[i]| && all[p..] == words[i][..|all| - p];
    assert gen[p..] == all[p..][..|gen| - p];
    assert words[i][..|gen| - p] == words[i][..|all| - p][..|gen| - p];
  }

  lemma BeginsStopInTail(gen: Text, words: seq<Text>, from: nat, p: nat)
    requires from <= p && from <= |gen|
    ensures BeginsStop(gen, words, p) <==> BeginsStop(gen[from..], words, p - from)
  {
    if p < |gen| {
      assert gen[from..][p - from..] == gen[p..];
    }
  }

  lemma AcceptKeepsSafe(s: TextState, piece: Text, words: seq<Text>)
    requires Safe(s, words) && Accept(s, piece, words).text.hasNext
    ensures Safe(Accept(s, piece, words).text, words)
    ensures var t := Accept(s, piece, words).text;
            t.nSent == |t.gen| <==> Complete(t.gen) && forall p :: 0 <= p ==> !BeginsStop(t.gen, words, p)
  {
    var gen := s.gen + piece;
    var test := gen[s.nSent..];
    forall p | 0 <= p < s.nSent
      ensures !BeginsStop(gen, words, p)
    {
      if BeginsStop(gen, words, p) { BeginsStopShrinks(s.gen, piece, words, p); }
    }
    if Complete(gen) {
      BeginsStopIsHeldBack(test, words, |piece|);
      if StopHit(test, words, |piece|, false).Some? {
        var p :| 0 <= p && BeginsStop(test, words, p);
        BeginsStopInTail(gen, words, s.nSent, p + s.nSent);
        assert BeginsStop(gen, words, p + s.nSent);
      } else {
        forall p | s.nSent <= p
          ensures !BeginsStop(gen, words, p)
        {
          BeginsStopInTail(gen, words, s.nSent, p);
        }
      }
    }
  }

  lemma {:induction false} RunIsSafe(pieces: seq<Text>, words: seq<Text>)
    requires Generate(pieces, words).text.hasNext
    ensures Safe(Generate(pieces, words).text, words)
  {
    if pieces != [] {
      var prev := Generate(pieces[..|pieces| - 1], words);
      RunIsSafe(pieces[..|pieces| - 1], words);
      AcceptKeepsSafe(prev.text, pieces[|pieces| - 1], words);
    }
  }

  /** Of a run that no stop word has ended, a streaming client gets the same text as one that waits for the final
      response exactly when the text is complete and no end of it begins a stop word: a missing tail ends in a beginning
      of a stop word or in an incomplete character. */
  lemma AllSentExactly(pieces: seq<Text>, words: seq<Text>)
    requires Generate(pieces, words).text.hasNext
    ensures var run := Generate(pieces, words);
            ClientText(run, true) == ClientText(run, false)
            <==> Complete(run.text.gen) && forall p :: 0 <= p ==> !BeginsStop(run.text.gen, words, p)
  {
    SentIsPrefix(pieces, words);
    var run := Generate(pieces, words);
    assert ClientText(run, true) == run.sent && ClientText(run, false) == run.text.gen;
    assert run.sent == run.text.gen <==> run.text.nSent == |run.text.gen|;
    if pieces != [] {
      RunIsSafe(pieces[..|pieces| - 1], words);
      AcceptKeepsSafe(Generate(pieces[..|pieces| - 1], words).text, pieces[|pieces| - 1], words);
    }
  }

  /** A streaming client loses text when a limit ends the run while it is held back: with the stop word
      "ab" and the single piece "xa", nothing is sent and the final response of a stream carries no text. */
  lemma HeldBackTextIsLost()
    ensures var run := Generate([[120, 97]], [[97, 98]]);
            run.text.hasNext && ClientText(run, true) == [] && ClientText(run, false) == [120, 97]
  {
    var piece: Text, words: seq<Text> := [120, 97], [[97, 98]];
    var pieces := [piece];
    assert pieces[..0] == [];
    EndIsHeldBack(piece, words);
    assert Generate(pieces, words) == Extend(Run(START, []), piece, words);
  }

  lemma EndIsHeldBack(piece: Text, words: seq<Text>)
    requires piece == [120, 97] && words == [[97, 98]]
    ensures Accept(START, piece, words) == Accepted(START.(gen := piece), Some([]), [])
  {
    assert [] + piece == piece && piece[0..] == piece;
    NoFullStop(piece, words);
    assert BeginsStop(piece, words, 1) by { assert piece[1..] == words[0][..1]; }
    BeginsStopIsHeldBack(piece, words, 2);
  }

  lemma NoFullStop(piece: Text, words: seq<Text>)
    requires piece == [120, 97] && words == [[97, 98]]
    ensures StopHit(piece, words, 2, true).None?
  {
    assert Find(piece, words[0], 0).None? by { assert piece[0..2] == piece; }
    assert EarliestOf(piece, words, 2, true, 0).None?;
  }

  lemma OccursInTail(gen: Text, word: Text, from: nat, p: nat)
    requires from <= |gen| && OccursAt(gen[from..], word, p)
    ensures OccursAt(gen, word, from + p)
  {
    assert gen[from..][p..p + |word|] == gen[from + p..from + p + |word|];
  }

  // ------------------------------------------------------------------ what a partial response may carry

  predicate GoodWords(words: seq<Text>) {
    forall i :: 0 <= i < |words| ==> words[i] != [] && WellFormed(words[i])
  }

  lemma StopStartsCharacter(gen: Text, n: nat, words: seq<Text>, last: nat, all: Text)
    requires WellFormed(all) && GoodWords(words) && gen <= all && n <= |gen|
    requires StopHit(gen[n..], words, last, true).Some?
    ensures Boundary(all, n + StopHit(gen[n..], words, last, true).value.pos)
  {
    var hit := StopHit(gen[n..], words, last, true).value;
    HitIsLateStop(gen[n..], words, last);
    var w, p := words[hit.word], n + hit.pos;
    OccursInTail(gen, w, n, hit.pos);
    WellFormedStart(w);
    assert all[p] == gen[p] == gen[p..p + |w|][0];
    LeadIsBoundary(all, p);
  }

  /** Where the sent text can end after one token. */
  predicate Moves(s: TextState, gen: Text, t: TextState, words: seq<Text>, last: nat)
    requires s.nSent <= |gen|
  {
    && t.gen <= gen && t.nSent <= |t.gen|
    && (t.hasNext ==> t.gen == gen && (t.nSent == s.nSent || (t.nSent == |gen| && Complete(gen))))
    && (!t.hasNext ==>
          var hit := StopHit(gen[s.nSent..], words, last, true);
          hit.Some? && t.nSent == s.nSent + hit.value.pos)
  }

  lemma AcceptMoves(s: TextState, piece: Text, words: seq<Text>)
    requires s.nSent <= |s.gen|
    ensures Moves(s, s.gen + piece, Accept(s, piece, words).text, words, |piece|)
  {
  }

  /** One token moves the end of what was sent from one character boundary of the whole text to another. */
  lemma MovesToBoundary(s: TextState, gen: Text, t: TextState, words: seq<Text>, last: nat, all: Text)
    requires WellFormed(all) && GoodWords(words)
    requires s.nSent <= |gen| && gen <= all && Moves(s, gen, t, words, last)
    requires Boundary(all, s.nSent)
    ensures t.gen <= all && Boundary(all, t.nSent)
  {
    if !t.hasNext {
      StopStartsCharacter(gen, s.nSent, words, last, all);
    } else if t.nSent != s.nSent {
      assert gen == all[..|gen|];
      CutIsExact(all, |gen|);
    }
  }

  lemma {:induction false} SentEndsOnBoundary(pieces: seq<Text>, words: seq<Text>, all: Text)
    requires WellFormed(all) && GoodWords(words) && Concat(pieces) <= all
    ensures var run := Generate(pieces, words);
            run.sent <= all && Boundary(all, |run.sent|) && (run.text.hasNext ==> run.text.gen == Concat(pieces))
  {
    SentIsPrefix(pieces, words);
    if pieces != [] {
      var front := pieces[..|pieces| - 1];
      SentEndsOnBoundary(front, words, all);
      SentIsPrefix(front, words);
      if Generate(front, words).text.hasNext {
        var s, piece := Generate(front, words).text, pieces[|pieces| - 1];
        AcceptMoves(s, piece, words);
        MovesToBoundary(s, s.gen + piece, Accept(s, piece, words).text, words, |piece|, all);
      }
    }
  }

  lemma SentGrows(pieces: seq<Text>, words: seq<Text>, n: nat)
    requires n < |pieces|
    ensures Generate(pieces[..n], words).sent <= Generate(pieces[..n + 1], words).sent
  {
    assert pieces[..n + 1][..n] == pieces[..n];
  }

  /** A character is never split between responses: if the generated text as a whole and the stop words
      are well formed, what each token adds to the sent text is well formed by itself. */
  lemma PartialContentIsWellFormed(pieces: seq<Text>, words: seq<Text>, n: nat)
    requires WellFormed(Concat(pieces)) && GoodWords(words) && n < |pieces|
    ensures var before, after := Generate(pieces[..n], words).sent, Generate(pieces[..n + 1], words).sent;
            before <= after && WellFormed(after[|before|..])
  {
    var all := Concat(pieces);
    var before, after := Generate(pieces[..n], words).sent, Generate(pieces[..n + 1], words).sent;
    SentGrows(pieces, words, n);
    ConcatPrefix(pieces, n);
    ConcatPrefix(pieces, n + 1);
    SentEndsOnBoundary(pieces[..n], words, all);
    SentEndsOnBoundary(pieces[..n + 1], words, all);
    BetweenBoundaries(all, |before|, |after|);
    assert after[|before|..] == all[|before|..|after|];
  }

  lemma {:induction false} ConcatPrefix(pieces: seq<Text>, n: nat)
    requires n <= |pieces|
    ensures Concat(pieces[..n]) <= Concat(pieces)
  {
    if n < |pieces| {
      ConcatPrefix(pieces[..|pieces| - 1], n);
      assert pieces[..|pieces| - 1][..n] == pieces[..n];
    } else {
      assert pieces[..n] == pieces;
    }
  }

  // ------------------------------------------------------------------ where it stops

  datatype NaiveRun = NaiveRun(gen: Text, stopped: bool)

  /** The reference: after every token, search the whole text and cut it at the earliest stop word. */
  function NaiveStream(pieces: seq<Text>, words: seq<Text>): NaiveRun {
    if pieces == [] then NaiveRun([], false) else
    var prev := NaiveStream(pieces[..|pieces| - 1], words);
    if prev.stopped then prev else
    var gen := prev.gen + pieces[|pieces| - 1];
    var at := Naive(gen, words);
    if at.Some? then NaiveRun(gen[..at.value], true) else NaiveRun(gen, false)
  }

  /** The two detectors have the same text and have both stopped, or both not. */
  predicate Agree(pieces: seq<Text>, words: seq<Text>) {
    var run, naive := Generate(pieces, words), NaiveStream(pieces, words);
    run.text.gen == naive.gen && run.text.hasNext == !naive.stopped
  }

  /** The last of these pieces is the one at which the naive detector stops. */
  predicate StopsHere(pieces: seq<Text>, words: seq<Text>) {
    pieces != [] && !NaiveStream(pieces[..|pieces| - 1], words).stopped && NaiveStream(pieces, words).stopped
  }

  lemma OccursBefore(gen: Text, piece: Text, w: Text, p: nat)
    requires OccursAt(gen + piece, w, p) && p + |w| <= |gen|
    ensures OccursAt(gen, w, p)
  {
    assert gen[p..p + |w|] == (gen + piece)[p..p + |w|];
  }

  lemma OccursBehind(gen: Text, w: Text, from: nat, p: nat)
    requires OccursAt(gen, w, p) && from <= p
    ensures from <= |gen| && OccursAt(gen[from..], w, p - from)
  {
    assert gen[from..][p - from..p - from + |w|] == gen[p..p + |w|];
  }

  lemma WordBegins(gen: Text, piece: Text, w: Text, p: nat)
    requires OccursAt(gen + piece, w, p) && p < |gen| < p + |w|
    ensures gen[p..] == w[..|gen| - p]
  {
    var all := gen + piece;
    forall j | 0 <= j < |gen| - p
      ensures gen[p..][j] == w[j]
    {
      assert all[p..p + |w|][j] == all[p + j];
    }
  }

  /** A stop in the grown text begins in what was not sent, and ends after the old text. */
  lemma NewStopIsUnsent(s: TextState, piece: Text, words: seq<Text>, p: nat)
    requires Safe(s, words) && Naive(s.gen, words).None?
    requires StopsAt(s.gen + piece, words, p)
    ensures s.nSent <= p
    ensures StopsLate((s.gen + piece)[s.nSent..], words, |piece|, p - s.nSent)
  {
    var gen := s.gen + piece;
    var i :| 0 <= i < |words| && OccursAt(gen, words[i], p);
    var w := words[i];
    if p + |w| <= |s.gen| {
      OccursBefore(s.gen, piece, w, p);
      assert StopsAt(s.gen, words, p);
      assert false;
    }
    if p < s.nSent {
      WordBegins(s.gen, piece, w, p);
      assert BeginsStop(s.gen, words, p);
      assert false;
    }
    OccursBehind(gen, w, s.nSent, p);
  }

  lemma TailHitIsStop(gen: Text, from: nat, words: seq<Text>, last: nat)
    requires from <= |gen| && StopHit(gen[from..], words, last, true).Some?
    ensures var hit := StopHit(gen[from..], words, last, true).value;
            OccursAt(gen, words[hit.word], from + hit.pos) && StopsAt(gen, words, from + hit.pos)
  {
    var hit := StopHit(gen[from..], words, last, true).value;
    HitIsLateStop(gen[from..], words, last);
    OccursInTail(gen, words[hit.word], from, hit.pos);
  }

  /** A stop of the whole text is hit in its unsent tail, or an earlier one is. */
  lemma NaiveStopIsHit(s: TextState, piece: Text, words: seq<Text>, at: nat)
    requires Safe(s, words) && Naive(s.gen, words).None? && StopsAt(s.gen + piece, words, at)
    ensures s.nSent <= |s.gen| && s.nSent <= at
    ensures var hit := StopHit((s.gen + piece)[s.nSent..], words, |piece|, true);
            hit.Some? && hit.value.pos <= at - s.nSent
  {
    assert s.nSent <= |s.gen|;
    hide StopHit, StopsLate, Safe, Naive, StopsAt;
    NewStopIsUnsent(s, piece, words, at);
    LateStopIsHit((s.gen + piece)[s.nSent..], words, |piece|, at - s.nSent);
  }

  /** The windowed search of unsent text finds what the naive search of the whole text finds. */
  lemma TailSearchIsNaive(s: TextState, piece: Text, words: seq<Text>)
    requires Safe(s, words) && Naive(s.gen, words).None?
    ensures var gen := s.gen + piece;
            var hit, at := StopHit(gen[s.nSent..], words, |piece|, true), Naive(gen, words);
            && (hit.Some? <==> at.Some?)
            && (hit.Some? ==> at.value == s.nSent + hit.value.pos && OccursAt(gen, words[hit.value.word], at.value))
  {
    var gen := s.gen + piece;
    var at := Naive(gen, words);
    assert s.nSent <= |s.gen| && (at.Some? ==> StopsAt(gen, words, at.value));
    hide Safe, StopHit, OccursAt, StopsAt;
    if at.Some? { NaiveStopIsHit(s, piece, words, at.value); }
    if StopHit(gen[s.nSent..], words, |piece|, true).Some? { TailHitIsStop(gen, s.nSent, words, |piece|); }
  }

  /** One token: the text is cut where the naive search cuts it, and is kept whole if there is no stop. */
  lemma AcceptIsNaive(s: TextState, piece: Text, words: seq<Text>)
    requires Safe(s, words) && Naive(s.gen, words).None?
    requires Naive(s.gen + piece, words).Some? ==> Complete(s.gen + piece)
    ensures var gen, t := s.gen + piece, Accept(s, piece, words).text;
            var at := Naive(gen, words);
            && (at.Some? ==>
                  t.gen == gen[..at.value] && !t.hasNext && t.stop == Word && OccursAt(gen, t.stoppingWord, at.value))
            && (at.None? ==> t.gen == gen && t.hasNext)
  {
    TailSearchIsNaive(s, piece, words);
  }

  lemma NoStopInNothing(words: seq<Text>)
    requires [] !in words
    ensures Naive([], words).None?
  {
    forall i | 0 <= i < |words| ensures !OccursAt([], words[i], 0) { assert words[i] in words; }
  }

  /** Up to a stop the naive text is all that was generated, and has no stop in it. */
  lemma {:induction false} NaiveKeepsAll(pieces: seq<Text>, words: seq<Text>)
    requires [] !in words && !NaiveStream(pieces, words).stopped
    ensures NaiveStream(pieces, words).gen == Concat(pieces) && Naive(Concat(pieces), words).None?
  {
    if pieces == [] { NoStopInNothing(words); } else { NaiveKeepsAll(pieces[..|pieces| - 1], words); }
  }

  lemma {:induction false} AgreeIfComplete(pieces: seq<Text>, words: seq<Text>)
    requires [] !in words
    requires forall n :: 0 <= n <= |pieces| && StopsHere(pieces[..n], words) ==> Complete(Concat(pieces[..n]))
    ensures Agree(pieces, words)
  {
    if pieces != [] {
      var front, piece := pieces[..|pieces| - 1], pieces[|pieces| - 1];
      assert forall n :: 0 <= n <= |front| ==> front[..n] == pieces[..n];
      AgreeIfComplete(front, words);
      if Generate(front, words).text.hasNext {
        RunIsSafe(front, words);
        NaiveKeepsAll(front, words);
        assert pieces[..|pieces|] == pieces;
        AcceptIsNaive(Generate(front, words).text, piece, words);
      }
    }
  }

  /** The incremental, windowed detector with hold-back stops at the same token and keeps the same text as
      the naive one, after every token, exactly when the text at which the naive one stops is complete. */
  lemma DetectorRefinesNaive(pieces: seq<Text>, words: seq<Text>)
    requires [] !in words
    ensures (forall n :: 0 <= n <= |pieces| ==> Agree(pieces[..n], words))
            <==> (forall n :: 0 <= n <= |pieces| && StopsHere(pieces[..n], words) ==> Complete(Concat(pieces[..n])))
  {
    if forall n :: 0 <= n <= |pieces| && StopsHere(pieces[..n], words) ==> Complete(Concat(pieces[..n])) {
      forall n | 0 <= n <= |pieces|
        ensures Agree(pieces[..n], words)
      {
        assert forall m :: 0 <= m <= n ==> pieces[..n][..m] == pieces[..m];
        AgreeIfComplete(pieces[..n], words);
      }
    } else {
      var n :| 0 <= n <= |pieces| && StopsHere(pieces[..n], words) && !Complete(Concat(pieces[..n]));
      assert pieces[..n][..n - 1] == pieces[..n - 1];
      NaiveKeepsAll(pieces[..n - 1], words);
      assert !(Agree(pieces[..n - 1], words) && Agree(pieces[..n], words));
    }
  }

  /** After a skipped piece the window can be too short: with stop word "a", the pieces "a" + C3 and
      A9 + "bc" are not stopped, although the whole text begins with "a". */
  lemma SkippedPieceHidesStop()
    ensures var pieces, words := [[97, 0xC3], [0xA9, 98, 99]], [[97]];
            Generate(pieces, words).text.hasNext && NaiveStream(pieces, words) == NaiveRun([], true)
  {
    var a: Text, b: Text, w: Text := [97, 0xC3], [0xA9, 98, 99], [97];
    var pieces, words := [a, b], [w];
    assert pieces[..1] == [a];
    FirstPieceIsSkipped(a, words);
    SecondPieceIsPastWindow(a, b, w);
    assert StopsAt(a, words, 0) by { assert OccursAt(a, words[0], 0); }
    assert [] + a == a;
    assert NaiveStream([a], words) == NaiveRun([], true) by { assert [a][..0] == []; }
  }

  lemma FirstPieceIsSkipped(a: Text, words: seq<Text>)
    requires a == [97, 0xC3]
    ensures Generate([a], words) == Run(START.(gen := a), [])
  {
    assert [a][..0] == [] && [] + a == a;
    assert CutAt(a, 1);
  }

  lemma SecondPieceIsPastWindow(a: Text, b: Text, w: Text)
    requires a == [97, 0xC3] && b == [0xA9, 98, 99] && w == [97]
    ensures Accept(START.(gen := a), b, [w]).text.hasNext
  {
    var all: Text := [97, 0xC3, 0xA9, 98, 99];
    assert a + b == all && all[0..] == all;
    assert !CutAt(all, 1) && !CutAt(all, 2) && !CutAt(all, 3);
    assert Find(all, w, 1).None? by {
      assert all[1..2][0] == 0xC3 && all[2..3][0] == 0xA9 && all[3..4][0] == 98 && all[4..5][0] == 99;
    }
    assert EarliestOf(all, [w], 3, true, 0).None?;
  }
}
