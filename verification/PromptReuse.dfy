/** How a new prompt is fitted to the window and to what the slot has cached: truncation (lines 2881 to 2912
    of server.hpp), longest common prefix, and chunk reuse by shifting (lines 2914 to 2964). */
module PromptReuse {
  import opened Wrappers
  import opened KvCache

  // ------------------------------------------------------------------ truncation

  /** `n_keep` after line 2876: a negative value keeps the whole prompt, and four places stay free. */
  function ClampKeep(nKeep: int, nPrompt: nat, nCtx: int): (k: int)
    requires nCtx >= 4
    ensures 0 <= k <= nCtx - 4
  {
    Min(nCtx - 4, if nKeep < 0 then nPrompt else nKeep)
  }

  function ErasedBlocks(nPrompt: nat, nKeep: nat, nCtx: nat): (e: nat)
    requires nKeep <= nCtx - 4 && nCtx <= nPrompt
    ensures var b := (nCtx - nKeep) / 2; nKeep + e * b <= nPrompt - b < nKeep + e * b + b
  {
    var b := (nCtx - nKeep) / 2;
    (nPrompt - nKeep - b) / b
  }

  /** A prompt that does not fit keeps its first `nKeep` tokens and loses whole half-windows after them. */
  function Truncated(prompt: seq<Token>, nKeep: nat, nCtx: nat): (r: seq<Token>)
    requires nKeep <= nCtx - 4 && nCtx <= |prompt|
  {
    var b := (nCtx - nKeep) / 2;
    prompt[..nKeep] + prompt[nKeep + ErasedBlocks(|prompt|, nKeep, nCtx) * b..]
  }

  lemma Multiples(k: int, b: int)
    requires b >= 0
    ensures k >= 1 ==> k * b >= b
    ensures k <= -1 ==> k * b <= -b
  {
    if k >= 1 { assert (k - 1) * b >= 0; }
    if k <= -1 { assert (-1 - k) * b >= 0; }
  }

  lemma MultipleDivides(e: nat, b: nat)
    requires b > 0
    ensures e * b % b == 0
  {
    var n := e * b;
    assert (e - n / b) * b == n % b;
    Multiples(e - n / b, b);
  }

  /** The truncated prompt fits below the window whatever the sizes: it is the first `nKeep` tokens and then
      a suffix of the original, at least half of the free window long and less than twice that; what is dropped between
      them are whole half-windows. */
  lemma TruncationFits(prompt: seq<Token>, nKeep: nat, nCtx: nat)
    requires nKeep <= nCtx - 4 && nCtx <= |prompt|
    ensures var r := Truncated(prompt, nKeep, nCtx);
            var half := (nCtx - nKeep) / 2;
            && nKeep + half <= |r| < nKeep + 2 * half <= nCtx && |r| < nCtx <= |prompt| && (|prompt| - |r|) % half == 0
            && r[..nKeep] == prompt[..nKeep]
            && r[nKeep..] == prompt[|prompt| - (|r| - nKeep)..]
  {
    var r := Truncated(prompt, nKeep, nCtx);
    var b := (nCtx - nKeep) / 2;
    var from := nKeep + ErasedBlocks(|prompt|, nKeep, nCtx) * b;
    assert r == prompt[..nKeep] + prompt[from..];
    assert |r| - nKeep == |prompt| - from;
    MultipleDivides(ErasedBlocks(|prompt|, nKeep, nCtx), b);
  }

  // ------------------------------------------------------------------ common prefix

  // common_lcp
  function Lcp(a: seq<Token>, b: seq<Token>): (n: nat)
    ensures n <= |a| && n <= |b| && a[..n] == b[..n]
    ensures n < |a| && n < |b| ==> a[n] != b[n]
  {
    LcpFrom(a, b, 0)
  }

  function LcpFrom(a: seq<Token>, b: seq<Token>, i: nat): (n: nat)
    requires i <= |a| && i <= |b| && a[..i] == b[..i]
    ensures i <= n <= |a| && n <= |b| && a[..n] == b[..n]
    ensures n < |a| && n < |b| ==> a[n] != b[n]
    decreases |a| - i
  {
    if i < |a| && i < |b| && a[i] == b[i] then
      assert a[..i + 1] == a[..i] + [a[i]] && b[..i + 1] == b[..i] + [b[i]];
      LcpFrom(a, b, i + 1)
    else i
  }

  // ------------------------------------------------------------------ chunk reuse

  /** How far the cache from `headC` on and the prompt from `headP` on agree, counted from `n`. */
  function MatchFrom(cache: seq<Token>, prompt: seq<Token>, headC: nat, headP: nat, n: nat): (m: nat)
    requires headC + n <= |cache| && headP + n <= |prompt|
    requires cache[headC..headC + n] == prompt[headP..headP + n]
    ensures n <= m && headC + m <= |cache| && headP + m <= |prompt|
    ensures cache[headC..headC + m] == prompt[headP..headP + m]
    ensures headC + m < |cache| && headP + m < |prompt| ==> cache[headC + m] != prompt[headP + m]
    decreases |cache| - headC - n
  {
    if headC + n < |cache| && headP + n < |prompt| && cache[headC + n] == prompt[headP + n] then
      assert cache[headC..headC + n + 1] == cache[headC..headC + n] + [cache[headC + n]];
      assert prompt[headP..headP + n + 1] == prompt[headP..headP + n] + [prompt[headP + n]];
      MatchFrom(cache, prompt, headC, headP, n + 1)
    else n
  }

  function MatchLength(cache: seq<Token>, prompt: seq<Token>, headC: nat, headP: nat): nat
    requires headC <= |cache| && headP <= |prompt|
  {
    MatchFrom(cache, prompt, headC, headP, 0)
  }

  lemma MatchGoesOn(cache: seq<Token>, prompt: seq<Token>, headC: nat, headP: nat, n: nat)
    requires headC + n < |cache| && headP + n < |prompt| && cache[headC + n] == prompt[headP + n]
    requires cache[headC..headC + n] == prompt[headP..headP + n]
    ensures cache[headC..headC + n + 1] == prompt[headP..headP + n + 1]
  {
    assert cache[headC..headC + n + 1] == cache[headC..headC + n] + [cache[headC + n]];
    assert prompt[headP..headP + n + 1] == prompt[headP..headP + n] + [prompt[headP + n]];
  }

  /** The match length is the only length up to which the two agree and cannot agree further. */
  lemma MatchIsLength(cache: seq<Token>, prompt: seq<Token>, headC: nat, headP: nat, n: nat)
    requires headC + n <= |cache| && headP + n <= |prompt| && cache[headC..headC + n] == prompt[headP..headP + n]
    requires headC + n < |cache| && headP + n < |prompt| ==> cache[headC + n] != prompt[headP + n]
    ensures n == MatchLength(cache, prompt, headC, headP)
  {
    var m := MatchLength(cache, prompt, headC, headP);
    var c, p := cache[headC..headC + m], prompt[headP..headP + m];
    assert c == p;
    if n < m { SameAt(c, p, n); }
  }

  lemma SameAt(c: seq<Token>, p: seq<Token>, k: nat)
    requires c == p && k < |c|
    ensures c[k] == p[k]
  {
  }

  /** The cache after `n` tokens were copied, first to last, from `headC` down to `headP`. */
  function CopiedDown(cache: seq<Token>, headC: nat, headP: nat, n: nat): (r: seq<Token>)
    requires headP <= headC && headC + n <= |cache|
    ensures |r| == |cache|
    ensures forall i :: 0 <= i < |r| ==> r[i] == if headP <= i < headP + n then cache[headC + i - headP] else cache[i]
  {
    cache[..headP] + cache[headC..headC + n] + cache[headP + n..]
  }

  /** Cached tokens, cells and `n_past` in the reuse loop; `head_p` is `n_past` throughout. */
  datatype Reuse = Reuse(cache: seq<Token>, kv: Kv, nPast: nat)

  /** One chunk of `n` tokens is moved from `headC` to `n_past`: cells are removed and shifted, tokens copied. */
  function MoveChunk(r: Reuse, headC: nat, n: nat): Reuse
    requires r.nPast <= headC && headC + n <= |r.cache|
  {
    var headP := r.nPast;
    Reuse(CopiedDown(r.cache, headC, headP, n),
          SeqAdd(SeqRm(r.kv, headP, headC), headC, headC + n, headP - headC), headP + n)
  }

  /** One turn of the reuse loop, and the next cache head. */
  function ReuseNext(r: Reuse, prompt: seq<Token>, headC: nat, minChunk: nat): (next: (Reuse, nat))
    requires r.nPast <= headC < |r.cache| && r.nPast < |prompt| && minChunk > 0
    ensures var (v, head) := next;
            headC < head <= |v.cache| == |r.cache| && r.nPast <= v.nPast <= head && v.nPast <= |prompt|
  {
    var n := MatchLength(r.cache, prompt, headC, r.nPast);
    if n >= minChunk then (MoveChunk(r, headC, n), headC + n) else (r, headC + 1)
  }

  /** The reuse loop from cache head `headC` on. */
  function ReuseFrom(r: Reuse, prompt: seq<Token>, headC: nat, minChunk: nat): (end: Reuse)
    requires r.nPast <= headC <= |r.cache| && r.nPast <= |prompt| && minChunk > 0
    ensures r.nPast <= end.nPast <= |prompt| && end.nPast <= |end.cache| == |r.cache|
    decreases |r.cache| - headC
  {
    if headC < |r.cache| && r.nPast < |prompt| then
      var (v, head) := ReuseNext(r, prompt, headC, minChunk);
      ReuseFrom(v, prompt, head, minChunk)
    else r
  }

  /** What the loop keeps: the part before `n_past` is the prompt's and is in the cells; from `headC` on the
      cells still agree with the cached tokens. */
  ghost predicate ReuseOk(r: Reuse, prompt: seq<Token>, headC: nat, effect: Effect) {
    && r.nPast <= headC <= |r.cache|
    && ReuseDone(r, prompt, effect)
    && (forall p :: headC <= p < |r.cache| ==> Holds(r.kv, p, r.cache[p], effect))
  }

  /** What the caller of the loop needs. */
  ghost predicate ReuseDone(r: Reuse, prompt: seq<Token>, effect: Effect) {
    && r.nPast <= |prompt| && r.nPast <= |r.cache|
    && r.cache[..r.nPast] == prompt[..r.nPast]
    && Covers(r.kv, prompt[..r.nPast], effect)
  }

  /** Where the cells are after a chunk has moved. */
  lemma MovedCell(r: Reuse, prompt: seq<Token>, headC: nat, n: nat, effect: Effect, p: nat)
    requires Matches(r, prompt, headC, n, effect)
    ensures p < r.nPast + n ==> Holds(MoveChunk(r, headC, n).kv, p, prompt[p], effect)
    ensures headC + n <= p < |r.cache| ==> Holds(MoveChunk(r, headC, n).kv, p, r.cache[p], effect)
  {
    var headP := r.nPast;
    SeqAddAt(SeqRm(r.kv, headP, headC), headC, headC + n, headP - headC, p);
    if p < headP {
      assert Holds(r.kv, p, prompt[..headP][p], effect);
    } else if p < headP + n {
      assert Holds(r.kv, p - headP + headC, r.cache[p - headP + headC], effect);
      assert r.cache[headC..headC + n][p - headP] == prompt[headP..headP + n][p - headP];
    } else if headC + n <= p < |r.cache| {
      assert Holds(r.kv, p, r.cache[p], effect);
    }
  }

  lemma CopiedTokens(r: Reuse, prompt: seq<Token>, headC: nat, n: nat)
    requires r.nPast <= headC && headC + n <= |r.cache| && r.nPast + n <= |prompt|
    requires r.cache[..r.nPast] == prompt[..r.nPast]
    requires r.cache[headC..headC + n] == prompt[r.nPast..r.nPast + n]
    ensures MoveChunk(r, headC, n).cache[..r.nPast + n] == prompt[..r.nPast + n]
  {
    var headP, copied := r.nPast, CopiedDown(r.cache, headC, r.nPast, n);
    assert copied[..headP + n] == r.cache[..headP] + r.cache[headC..headC + n];
    assert prompt[..headP + n] == prompt[..headP] + prompt[headP..headP + n];
  }

  /** A chunk that can be moved: it matches the prompt. */
  ghost predicate Matches(r: Reuse, prompt: seq<Token>, headC: nat, n: nat, effect: Effect) {
    && ReuseOk(r, prompt, headC, effect)
    && headC + n <= |r.cache| && r.nPast + n <= |prompt|
    && r.cache[headC..headC + n] == prompt[r.nPast..r.nPast + n]
  }

  lemma MovedIsDone(r: Reuse, prompt: seq<Token>, headC: nat, n: nat, effect: Effect)
    requires Matches(r, prompt, headC, n, effect)
    ensures ReuseDone(MoveChunk(r, headC, n), prompt, effect)
  {
    CopiedTokens(r, prompt, headC, n);
    var v := MoveChunk(r, headC, n);
    var done := prompt[..v.nPast];
    forall p | 0 <= p < |done| ensures Holds(v.kv, p, done[p], effect) {
      MovedCell(r, prompt, headC, n, effect, p);
    }
  }

  lemma RestStays(r: Reuse, prompt: seq<Token>, headC: nat, n: nat, effect: Effect)
    requires Matches(r, prompt, headC, n, effect)
    ensures var v := MoveChunk(r, headC, n);
            forall p :: headC + n <= p < |v.cache| ==> Holds(v.kv, p, v.cache[p], effect)
  {
    var v := MoveChunk(r, headC, n);
    forall p | headC + n <= p < |v.cache| ensures Holds(v.kv, p, v.cache[p], effect) {
      MovedCell(r, prompt, headC, n, effect, p);
    }
  }

  /** Moving a matching chunk keeps the loop invariant, and no two cells meet at one position. */
  lemma MoveChunkOk(r: Reuse, prompt: seq<Token>, headC: nat, n: nat, effect: Effect)
    requires Matches(r, prompt, headC, n, effect)
    ensures NoClash(SeqRm(r.kv, r.nPast, headC), headC, headC + n, r.nPast - headC)
    ensures ReuseOk(MoveChunk(r, headC, n), prompt, headC + n, effect)
  {
    MovedIsDone(r, prompt, headC, n, effect);
    RestStays(r, prompt, headC, n, effect);
  }

  lemma ReuseNextOk(r: Reuse, prompt: seq<Token>, headC: nat, minChunk: nat, effect: Effect)
    requires ReuseOk(r, prompt, headC, effect) && minChunk > 0 && headC < |r.cache| && r.nPast < |prompt|
    ensures var (v, head) := ReuseNext(r, prompt, headC, minChunk); ReuseOk(v, prompt, head, effect)
  {
    var n := MatchLength(r.cache, prompt, headC, r.nPast);
    if n >= minChunk { MoveChunkOk(r, prompt, headC, n, effect); }
  }

  lemma {:induction false} ReuseKeepsOk(r: Reuse, prompt: seq<Token>, headC: nat, minChunk: nat, effect: Effect)
    requires ReuseOk(r, prompt, headC, effect) && minChunk > 0
    ensures ReuseDone(ReuseFrom(r, prompt, headC, minChunk), prompt, effect)
    decreases |r.cache| - headC
  {
    if headC < |r.cache| && r.nPast < |prompt| {
      var (v, head) := ReuseNext(r, prompt, headC, minChunk);
      ReuseNextOk(r, prompt, headC, minChunk, effect);
      ReuseKeepsOk(v, prompt, head, minChunk, effect);
    }
  }

  /** Cache, cells and `n_past` when the loop is done: lines 2916 to 2964. */
  function Reused(cache: seq<Token>, kv: Kv, prompt: seq<Token>, minChunk: nat): (end: Reuse)
    ensures end.nPast <= |prompt| && end.nPast <= |end.cache| == |cache|
  {
    var lcp := Lcp(cache, prompt);
    if minChunk > 0 then ReuseFrom(Reuse(cache, kv, lcp), prompt, lcp, minChunk) else Reuse(cache, kv, lcp)
  }

  /** Prompt reuse is right: started on a cache that the cells cover, it ends with `n_past` between the common
      prefix and the prompt length, the cached tokens up to there are the prompt's, and trimmed to any `n`
      not above `n_past` the cells hold exactly the first `n` prompt tokens. */
  lemma ReuseIsRight(cache: seq<Token>, kv: Kv, prompt: seq<Token>, minChunk: nat, n: nat, effect: Effect)
    requires Covers(kv, cache, effect)
    requires n <= Reused(cache, kv, prompt, minChunk).nPast
    ensures var r := Reused(cache, kv, prompt, minChunk);
            && Lcp(cache, prompt) <= r.nPast <= |prompt|
            && r.cache[..n] == prompt[..n]
            && Mirrors(SeqRm(r.kv, n, -1), prompt[..n], effect)
  {
    var lcp := Lcp(cache, prompt);
    var start, r := Reuse(cache, kv, lcp), Reused(cache, kv, prompt, minChunk);
    assert ReuseOk(start, prompt, lcp, effect) by {
      forall p | 0 <= p < lcp
        ensures Holds(kv, p, prompt[..lcp][p], effect)
      {
        assert Holds(kv, p, cache[p], effect);
        assert cache[..lcp][p] == prompt[..lcp][p];
      }
    }
    if minChunk > 0 { ReuseKeepsOk(start, prompt, lcp, minChunk, effect); }
    TrimMirrors(r.kv, prompt[..r.nPast], n, effect);
    assert prompt[..r.nPast][..n] == prompt[..n];
    assert r.cache[..n] == r.cache[..r.nPast][..n];
  }

  // ------------------------------------------------------------------ what chunk reuse gains

  /** The `n` cached tokens from `h` on are the next `n` of the prompt. */
  predicate ChunkAt(cache: seq<Token>, prompt: seq<Token>, nPast: nat, h: nat, n: nat) {
    nPast + n <= |prompt| && h + n <= |cache| && cache[h..h + n] == prompt[nPast..nPast + n]
  }

  predicate HasChunk(cache: seq<Token>, prompt: seq<Token>, nPast: nat, headC: nat, n: nat) {
    exists h :: headC <= h <= |cache| && ChunkAt(cache, prompt, nPast, h, n)
  }

  lemma ShorterMatch(cache: seq<Token>, prompt: seq<Token>, h: nat, p: nat, m: nat, n: nat)
    requires n <= m && h + m <= |cache| && p + m <= |prompt| && cache[h..h + m] == prompt[p..p + m]
    ensures cache[h..h + n] == prompt[p..p + n]
  {
    assert cache[h..h + n] == cache[h..h + m][..n] && prompt[p..p + n] == prompt[p..p + m][..n];
  }

  lemma ChunkAgrees(cache: seq<Token>, prompt: seq<Token>, h: nat, p: nat, n: nat, k: nat)
    ensures ChunkAt(cache, prompt, p, h, n) && k < n ==> cache[h + k] == prompt[p + k]
  {
    if ChunkAt(cache, prompt, p, h, n) && k < n { SameAt(cache[h..h + n], prompt[p..p + n], k); }
  }

  lemma MatchesExactly(cache: seq<Token>, prompt: seq<Token>, h: nat, p: nat, n: nat)
    requires h <= |cache| && p <= |prompt|
    ensures MatchLength(cache, prompt, h, p) >= n <==> ChunkAt(cache, prompt, p, h, n)
  {
    var m := MatchLength(cache, prompt, h, p);
    ChunkAgrees(cache, prompt, h, p, n, m);
    if m >= n { ShorterMatch(cache, prompt, h, p, m, n); }
  }

  lemma {:induction false} LoopGainsExactly(r: Reuse, prompt: seq<Token>, headC: nat, minChunk: nat)
    requires r.nPast <= headC <= |r.cache| && r.nPast <= |prompt| && minChunk > 0
    ensures var end := ReuseFrom(r, prompt, headC, minChunk);
            if HasChunk(r.cache, prompt, r.nPast, headC, minChunk) then end.nPast >= r.nPast + minChunk else end == r
    decreases |r.cache| - headC
  {
    hide MatchLength, ChunkAt, CopiedDown, SeqAdd, SeqRm;
    if headC < |r.cache| && r.nPast < |prompt| {
      MatchesExactly(r.cache, prompt, headC, r.nPast, minChunk);
      if MatchLength(r.cache, prompt, headC, r.nPast) < minChunk {
        LoopGainsExactly(r, prompt, headC + 1, minChunk);
      }
    } else {
      NoChunkAtEnd(r.cache, prompt, r.nPast, headC, minChunk);
    }
  }

  lemma NoChunkAtEnd(cache: seq<Token>, prompt: seq<Token>, nPast: nat, headC: nat, n: nat)
    requires n > 0 && (headC >= |cache| || nPast >= |prompt|)
    ensures !HasChunk(cache, prompt, nPast, headC, n)
  {
  }

  /** Chunk reuse is not idle: it gets past the common prefix exactly if it is on and, behind that prefix, the cache
      has a chunk of the least size that is next in the prompt; and then at least by that size. */
  lemma ReuseGainsExactly(cache: seq<Token>, kv: Kv, prompt: seq<Token>, minChunk: nat)
    ensures var lcp, r := Lcp(cache, prompt), Reused(cache, kv, prompt, minChunk);
            if minChunk > 0 && HasChunk(cache, prompt, lcp, lcp, minChunk) then r.nPast >= lcp + minChunk
            else r == Reuse(cache, kv, lcp)
  {
    var lcp := Lcp(cache, prompt);
    if minChunk > 0 { LoopGainsExactly(Reuse(cache, kv, lcp), prompt, lcp, minChunk); }
  }
}
