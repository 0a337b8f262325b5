/** The indentation limit of `process_token`: behind the first new line, a line that is indented by less than
    `n_indent` ends the task and is cut, also if it was sent. */
module Indentation {
  import opened Wrappers
  import opened Utf8
  import opened StopWords
  import opened TextStream

  const NEWLINE: Byte := 0x0A

  predicate Blank(b: Byte) { b == 0x20 || b == 0x09 }

  /** The number of spaces and tabs from `pos` on: lines 2105 to 2110 of server.hpp. */
  function Blanks(gen: Text, pos: nat): (n: nat)
    ensures pos <= |gen| ==> pos + n <= |gen|
    ensures forall k :: pos <= k < pos + n ==> k < |gen| && Blank(gen[k])
    ensures pos + n < |gen| ==> !Blank(gen[pos + n])
    decreases |gen| - pos
  {
    if pos < |gen| && Blank(gen[pos]) then 1 + Blanks(gen, pos + 1) else 0
  }

  /** Where the last line is cut, if it is. */
  function LineCut(t: TextState, nIndent: int): (cut: Option<nat>)
    ensures cut.Some? ==> t.lastNl <= cut.value < |t.gen|
  {
    if t.lastNl == 0 then None else
    var n := Blanks(t.gen, t.lastNl);
    if t.lastNl + n < |t.gen| && n < nIndent then Some(t.lastNl + n) else None
  }

  function NextLine(t: TextState): TextState {
    var pos := Find(t.gen, [NEWLINE], t.lastNl);
    if pos.Some? then t.(lastNl := pos.value + 1) else t
  }

  /** Lines 2099 to 2132: the line is checked, then the next one is looked for. */
  function LineChecked(t: TextState, nIndent: int): TextState {
    if nIndent <= 0 then t else
    var cut := LineCut(t, nIndent);
    NextLine(if cut.Some? then Stopped(t.(gen := t.gen[..cut.value]), Limit) else t)
  }

  /** Lines 2088 to 2137: once a new line was seen, time and indentation are limited. */
  function LinesChecked(t: TextState, nIndent: int, late: bool, shown: Text): TextState {
    var timed := if t.hasNewLine && late then Stopped(t, Limit) else t;
    var lined := if t.hasNewLine then LineChecked(timed, nIndent) else timed;
    if NEWLINE in shown then lined.(hasNewLine := true) else lined
  }

  /** The limits never set a stopped text going again. */
  lemma LimitsOnlyStop(t: TextState, nIndent: int, late: bool, shown: Text)
    ensures LinesChecked(t, nIndent, late, shown).hasNext ==> t.hasNext
  {
  }

  // ------------------------------------------------------------------ runs

  /** One token more, with the indentation limit on. */
  function ExtendLines(run: Run, piece: Text, words: seq<Text>, nIndent: int): Run {
    if !run.text.hasNext then run else
    var a := Accept(run.text, piece, words);
    Run(LinesChecked(a.text, nIndent, false, a.shown), run.sent + if a.out.Some? then a.out.value else [])
  }

  /** A run over a list of pieces that ends at a stop word or at the indentation limit. */
  function GenerateLines(pieces: seq<Text>, words: seq<Text>, nIndent: int): Run {
    if pieces == [] then Run(START, [])
    else ExtendLines(GenerateLines(pieces[..|pieces| - 1], words, nIndent), pieces[|pieces| - 1], words, nIndent)
  }

  /** A line begins at `p`. */
  predicate LineAt(gen: Text, p: nat) { 0 < p <= |gen| && gen[p - 1] == NEWLINE }

  /** The lines before the one that is looked at, but for the first, are indented. */
  ghost predicate Indented(t: TextState, nIndent: int) {
    && (t.lastNl == 0 || LineAt(t.gen, t.lastNl))
    && (forall p: nat :: p < t.lastNl && LineAt(t.gen, p) ==> Blanks(t.gen, p) >= nIndent)
  }

  lemma {:induction false} MoreBlanks(gen: Text, more: Text, pos: nat)
    requires gen <= more && pos <= |gen|
    ensures Blanks(more, pos) >= Blanks(gen, pos)
    decreases |gen| - pos
  {
    if pos < |gen| && Blank(gen[pos]) { MoreBlanks(gen, more, pos + 1); }
  }

  lemma GrownIsIndented(t: TextState, u: TextState, nIndent: int)
    requires Indented(t, nIndent) && t.gen <= u.gen && u.lastNl == t.lastNl
    ensures Indented(u, nIndent)
  {
    forall p: nat | p < u.lastNl && LineAt(u.gen, p) ensures Blanks(u.gen, p) >= nIndent {
      assert LineAt(t.gen, p);
      MoreBlanks(t.gen, u.gen, p);
    }
  }

  lemma NextIsIndented(t: TextState, nIndent: int)
    requires Indented(t, nIndent) && LineCut(t, nIndent).None?
    ensures Indented(NextLine(t), nIndent)
  {
    var u := NextLine(t);
    if u != t {
      assert OccursAt(t.gen, [NEWLINE], u.lastNl - 1);
      forall p: nat | p < u.lastNl && LineAt(u.gen, p) ensures Blanks(u.gen, p) >= nIndent {
        if p > t.lastNl { assert OccursAt(t.gen, [NEWLINE], p - 1); }
        if p == t.lastNl { assert t.lastNl + Blanks(t.gen, t.lastNl) < u.lastNl; }
      }
    }
  }

  /** A task that goes on has its text indented up to the line that is looked at, and what was sent is a beginning of
      its text. */
  lemma {:induction false} LinesAreIndented(pieces: seq<Text>, words: seq<Text>, nIndent: int)
    requires GenerateLines(pieces, words, nIndent).text.hasNext
    ensures Indented(GenerateLines(pieces, words, nIndent).text, nIndent)
            && SentOk(GenerateLines(pieces, words, nIndent))
  {
    if pieces != [] {
      var run := GenerateLines(pieces[..|pieces| - 1], words, nIndent);
      LinesAreIndented(pieces[..|pieces| - 1], words, nIndent);
      TokenIsIndented(run, pieces[|pieces| - 1], words, nIndent);
    }
  }

  lemma AcceptGrows(t: TextState, piece: Text, words: seq<Text>)
    requires Accept(t, piece, words).text.hasNext
    ensures var u := Accept(t, piece, words).text; u.gen == t.gen + piece && u.lastNl == t.lastNl
  {
  }

  lemma GoesOn(t: TextState, nIndent: int, shown: Text)
    requires Indented(t, nIndent) && LinesChecked(t, nIndent, false, shown).hasNext
    ensures var u := LinesChecked(t, nIndent, false, shown);
            t.hasNext && Indented(u, nIndent) && u.gen == t.gen && u.nSent == t.nSent
  {
    if LineCut(t, nIndent).None? { NextIsIndented(t, nIndent); }
  }

  lemma TokenIsIndented(run: Run, piece: Text, words: seq<Text>, nIndent: int)
    requires run.text.hasNext && Indented(run.text, nIndent) && SentOk(run)
    requires ExtendLines(run, piece, words, nIndent).text.hasNext
    ensures var r := ExtendLines(run, piece, words, nIndent); Indented(r.text, nIndent) && SentOk(r)
  {
    var a := Accept(run.text, piece, words);
    ExtendKeepsSent(run, piece, words);
    hide Accept, LineChecked, Indented;
    assert a.text.hasNext;
    AcceptGrows(run.text, piece, words);
    GrownIsIndented(run.text, a.text, nIndent);
    GoesOn(a.text, nIndent, a.shown);
  }

  /** At the limit a streaming client has the text that a waiting one gets exactly if it was sent up to the cut; and it
      has text that is taken back exactly if more was sent. */
  lemma CutAgreesExactly(run: Run, nIndent: int)
    requires SentOk(run) && LineCut(run.text, nIndent).Some?
    ensures var t := LineChecked(run.text, nIndent);
            && !t.hasNext && t.stop == Limit
            && (ClientText(Run(t, run.sent), true) == ClientText(Run(t, run.sent), false)
                <==> run.text.nSent == LineCut(run.text, nIndent).value)
            && (run.sent <= t.gen <==> run.text.nSent <= LineCut(run.text, nIndent).value)
  {
    var cut := LineCut(run.text, nIndent).value;
    if run.text.nSent <= cut { assert run.sent == run.text.gen[..cut][..run.text.nSent]; }
  }

  lemma OneLineMore(pieces: seq<Text>, piece: Text, run: Run, gen: Text)
    requires run == GenerateLines(pieces, [], 1) && run.text.hasNext && run.text.nSent == |run.text.gen|
    requires gen == run.text.gen + piece && Complete(gen)
    ensures GenerateLines(pieces + [piece], [], 1)
            == Run(LinesChecked(run.text.(gen := gen, nSent := |gen|), 1, false, piece), run.sent + piece)
  {
    assert (pieces + [piece])[..|pieces|] == pieces && gen[run.text.nSent..] == piece;
    hide LinesChecked, Complete;
    assert StopHit(piece, [], |piece|, true).None? && StopHit(piece, [], |piece|, false).None?;
  }

  lemma LineIsFound(t: TextState, gen: Text)
    requires gen == [97, NEWLINE, 98] && t == START.(gen := gen, nSent := 3, hasNewLine := true)
    ensures LinesChecked(t, 1, false, [98]) == t.(lastNl := 2)
  {
    assert Find(gen, [NEWLINE], 0) == Some(1) by { assert gen[0..1][0] == 97 && gen[1..2] == [NEWLINE]; }
  }

  lemma LineIsCut(t: TextState, gen: Text)
    requires gen == [97, NEWLINE, 98, 99] && t == START.(gen := gen, nSent := 4, hasNewLine := true, lastNl := 2)
    ensures LinesChecked(t, 1, false, [99]).gen == [97, NEWLINE] && LinesChecked(t, 1, false, [99]).stop == Limit
  {
    assert LineCut(t, 1) == Some(2) && gen[..2] == [97, NEWLINE];
  }

  lemma LineIsSeen(a: Text)
    requires a == [97, NEWLINE]
    ensures GenerateLines([a], [], 1) == Run(START.(gen := a, nSent := 2, hasNewLine := true), a)
  {
    assert Complete(a) && [] + a == a && [] + [a] == [a];
    OneLineMore([], a, Run(START, []), a);
  }

  lemma ThreeComplete(a: Text)
    requires a == [97, NEWLINE]
    ensures Complete(a + [98]) && Complete(a + [98] + [99])
  {
    assert a + [98] + [99] == [97, NEWLINE, 98, 99] && a + [98] == [97, NEWLINE, 98];
  }

  /** "a" and a new line, "b", and "c": the second line is checked after it was sent, and then cut. */
  lemma SentLineIsTakenBack()
    ensures var run := GenerateLines([[97, NEWLINE], [98], [99]], [], 1);
            run.sent == [97, NEWLINE, 98, 99] && run.text.gen == [97, NEWLINE] && run.text.stop == Limit
  {
    var a, b, c: Text := [97, NEWLINE], [97, NEWLINE, 98], [97, NEWLINE, 98, 99];
    var first := Run(START.(gen := a, nSent := 2, hasNewLine := true), a);
    var second := Run(START.(gen := b, nSent := 3, hasNewLine := true, lastNl := 2), b);
    LineIsSeen(a);
    ThreeComplete(a);
    LineIsFound(second.text.(lastNl := 0), b);
    LineIsCut(second.text.(gen := c, nSent := 4), c);
    hide *;
    assert a + [98] == b && b + [99] == c;
    assert [a] + [[98]] == [a, [98]] && [a, [98]] + [[99]] == [a, [98], [99]];
    OneLineMore([a], [98], first, b);
    OneLineMore([a, [98]], [99], second, c);
  }

  lemma AcceptIgnoresNewLine(t: TextState, piece: Text, words: seq<Text>)
    ensures var a, b := Accept(t, piece, words), Accept(t.(hasNewLine := false), piece, words);
            b == Accepted(a.text.(hasNewLine := false), a.out, a.shown)
  {
  }

  /** Without the limit the run is the one of `TextStream`. */
  lemma {:induction false} NoLimitIsPlain(pieces: seq<Text>, words: seq<Text>, nIndent: int)
    requires nIndent <= 0
    ensures var r := GenerateLines(pieces, words, nIndent);
            Run(r.text.(hasNewLine := false), r.sent) == Generate(pieces, words)
  {
    if pieces != [] {
      var run := GenerateLines(pieces[..|pieces| - 1], words, nIndent);
      NoLimitIsPlain(pieces[..|pieces| - 1], words, nIndent);
      AcceptIgnoresNewLine(run.text, pieces[|pieces| - 1], words);
      hide Accept;
    }
  }
}
