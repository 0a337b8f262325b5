/** The part of the llama context that the server edits: for every sequence (one per slot) the cells by
    position. A cell remembers the token that was decoded into it and the adapters in force then. */
module KvCache {
  type Token = int

  /** `common_adapter_lora_info`. */
  datatype Adapter = Adapter(ptr: int, scale: real, path: string)
  type Lora = seq<Adapter>

  /** What a set of adapters does to decoding: pointers and scales, not paths. */
  type Effect = seq<(int, real)>

  function Effective(lora: Lora): (e: Effect)
    ensures |e| == |lora| && forall i :: 0 <= i < |lora| ==> e[i] == (lora[i].ptr, lora[i].scale)
  {
    if lora == [] then [] else Effective(lora[..|lora| - 1]) + [(lora[|lora| - 1].ptr, lora[|lora| - 1].scale)]
  }

  predicate LoraEqual(l1: Lora, l2: Lora) { Effective(l1) == Effective(l2) }

  // are_lora_equal
  method AreLoraEqual(l1: Lora, l2: Lora) returns (equal: bool)
    ensures equal == LoraEqual(l1, l2)
  {
    if |l1| != |l2| {
      return false;
    }
    var i := 0;
    while i < |l1|
      invariant 0 <= i <= |l1|
      invariant forall j :: 0 <= j < i ==> Effective(l1)[j] == Effective(l2)[j]
    {
      if l1[i].scale != l2[i].scale || l1[i].ptr != l2[i].ptr {
        assert Effective(l1)[i] != Effective(l2)[i];
        return false;
      }
      i := i + 1;
    }
    return true;
  }

  datatype Cell = Cell(tok: Token, effect: Effect)
  type Kv = map<nat, Cell>

  /** Positions `[p0, p1)`; a negative bound is open. */
  predicate InRange(p: int, p0: int, p1: int) {
    (p0 < 0 || p0 <= p) && (p1 < 0 || p < p1)
  }

  // llama_kv_cache_seq_rm, when it succeeds
  function SeqRm(kv: Kv, p0: int, p1: int): Kv {
    map p | p in kv && !InRange(p, p0, p1) :: kv[p]
  }

  /** No moved cell lands on one that stays: after the shift there is still one cell per position. */
  predicate NoClash(kv: Kv, p0: int, p1: int, delta: int) {
    forall p :: p in kv && InRange(p, p0, p1) && p + delta >= 0 ==> p + delta !in kv || InRange(p + delta, p0, p1)
  }

  // llama_kv_cache_seq_add: cells moved below position 0 are dropped
  function SeqAdd(kv: Kv, p0: int, p1: int, delta: int): Kv {
    var moved := set p | p in kv && InRange(p, p0, p1) && p + delta >= 0 :: p + delta;
    var kept := set p | p in kv && !InRange(p, p0, p1);
    map q | q in moved + kept :: if q in moved then (if q - delta in kv then kv[q - delta] else Cell(0, [])) else kv[q]
  }

  /** Where a shifted cell is found. */
  lemma SeqAddAt(kv: Kv, p0: int, p1: int, delta: int, q: nat)
    ensures q - delta >= 0 && q - delta in kv && InRange(q - delta, p0, p1) ==>
              q in SeqAdd(kv, p0, p1, delta) && SeqAdd(kv, p0, p1, delta)[q] == kv[q - delta]
    ensures !(q - delta >= 0 && q - delta in kv && InRange(q - delta, p0, p1)) ==>
              if q in kv && !InRange(q, p0, p1) then q in SeqAdd(kv, p0, p1, delta)
                && SeqAdd(kv, p0, p1, delta)[q] == kv[q]
              else q !in SeqAdd(kv, p0, p1, delta)
  {
    var moved := set p | p in kv && InRange(p, p0, p1) && p + delta >= 0 :: p + delta;
    if q - delta >= 0 && q - delta in kv && InRange(q - delta, p0, p1) {
      assert (q - delta) + delta in moved;
    }
  }

  /** The cell at `p` holds this token, decoded under these adapters. */
  predicate Holds(kv: Kv, p: nat, tok: Token, effect: Effect) {
    p in kv && kv[p].tok == tok && kv[p].effect == effect
  }

  /** Positions `0..|toks|` hold `toks`. */
  predicate Covers(kv: Kv, toks: seq<Token>, effect: Effect) {
    forall p :: 0 <= p < |toks| ==> Holds(kv, p, toks[p], effect)
  }

  /** Positions `0..|toks|` hold `toks`, but those in `[lo, hi)` hold nothing yet. */
  predicate CoversBut(kv: Kv, toks: seq<Token>, lo: int, hi: int, effect: Effect) {
    && (forall p :: 0 <= p < |toks| && !(lo <= p < hi) ==> Holds(kv, p, toks[p], effect))
    && (forall p :: p in kv ==> !(lo <= p < hi))
  }

  /** Positions `0..|toks|` hold `toks`, and there are no others. */
  predicate Mirrors(kv: Kv, toks: seq<Token>, effect: Effect) {
    Covers(kv, toks, effect) && forall p :: p in kv ==> p < |toks|
  }

  /** Trimming to the first `n` positions makes a cover exact. */
  lemma TrimMirrors(kv: Kv, toks: seq<Token>, n: nat, effect: Effect)
    requires n <= |toks| && Covers(kv, toks, effect)
    ensures Mirrors(SeqRm(kv, n, -1), toks[..n], effect)
  {
  }

  /** Removing `d` positions from `keep` on and moving the rest down closes the gap: the first `keep` tokens
      and those after the removed block stay, in order. */
  lemma ShiftMirrors(kv: Kv, toks: seq<Token>, keep: nat, d: int, effect: Effect)
    requires 0 <= d && keep + d <= |toks| && Mirrors(kv, toks, effect)
    ensures NoClash(SeqRm(kv, keep, keep + d), keep + d, |toks|, -d)
    ensures Mirrors(SeqAdd(SeqRm(kv, keep, keep + d), keep + d, |toks|, -d), toks[..keep] + toks[keep + d..], effect)
  {
    var cut := SeqRm(kv, keep, keep + d);
    var moved := SeqAdd(cut, keep + d, |toks|, -d);
    var left := toks[..keep] + toks[keep + d..];
    forall q: nat
      ensures q < |left| ==> Holds(moved, q, left[q], effect)
      ensures q in moved ==> q < |left|
    {
      SeqAddAt(cut, keep + d, |toks|, -d, q);
      if keep <= q < |left| {
        assert Holds(kv, q + d, toks[q + d], effect);
      } else if q < keep {
        assert Holds(kv, q, toks[q], effect);
      }
    }
  }
}
