/** Stop-word search on a tail of text: `find_partial_stop_string` and `ends_with` of utils.hpp and
    `server_slot::find_stopping_strings` of server.hpp. */
module StopWords {
  import opened Wrappers
  import opened Utf8

  predicate OccursAt(text: Text, word: Text, p: nat) {
    p + |word| <= |text| && text[p..p + |word|] == word
  }

  /** `std::string::find`: the first occurrence at or after `from`. */
  function Find(text: Text, word: Text, from: nat): (r: Option<nat>)
    ensures r.Some? ==> from <= r.value && OccursAt(text, word, r.value)
    ensures forall p :: from <= p < (if r.Some? then r.value else |text| + 1) ==> !OccursAt(text, word, p)
    decreases |text| - from
  {
    if from + |word| > |text| then None
    else if text[from..from + |word|] == word then Some(from)
    else Find(text, word, from + 1)
  }

  predicate EndsWith(str: Text, suffix: Text) {
    |str| >= |suffix| && str[|str| - |suffix|..] == suffix
  }

  /** A non-empty beginning of `stop`, `k` bytes long, that `text` ends in. */
  predicate HeldBack(stop: Text, text: Text, k: nat) {
    1 <= k <= |stop| && EndsWith(text, stop[..k])
  }

  /** The result of the backward scan of `find_partial_stop_string` over beginnings of at most `k` bytes. */
  function PartialFrom(stop: Text, text: Text, k: nat): (r: Option<nat>)
    requires k <= |stop|
    ensures r.Some? ==> r.value < |text|
  {
    if k == 0 then None
    else if HeldBack(stop, text, k) then Some(|text| - k)
    else PartialFrom(stop, text, k - 1)
  }

  /** Where the longest beginning of `stop` that `text` ends in starts. */
  function PartialStop(stop: Text, text: Text): Option<nat> {
    PartialFrom(stop, text, |stop|)
  }

  /** The scan finds the longest beginning, and fails only if there is none. */
  lemma {:induction false} PartialIsLongest(stop: Text, text: Text, k: nat)
    requires k <= |stop|
    ensures var r := PartialFrom(stop, text, k);
            && (r.Some? ==> |text| - r.value <= k && HeldBack(stop, text, |text| - r.value))
            && (forall j :: (if r.Some? then |text| - r.value else 0) < j <= k ==> !HeldBack(stop, text, j))
  {
    if k > 0 && !HeldBack(stop, text, k) {
      PartialIsLongest(stop, text, k - 1);
    }
  }

  lemma HeldBackLastByte(stop: Text, text: Text, k: nat)
    requires HeldBack(stop, text, k)
    ensures text != [] && stop[k - 1] == text[|text| - 1]
  {
    assert text[|text| - k..][k - 1] == stop[..k][k - 1];
  }

  // find_partial_stop_string
  method FindPartialStopString(stop: Text, text: Text) returns (r: Option<nat>)
    ensures r == PartialStop(stop, text)
  {
    if |text| != 0 && |stop| != 0 {
      var textLastChar := text[|text| - 1];
      var charIndex := |stop| - 1;
      while charIndex >= 0
        invariant -1 <= charIndex < |stop|
        invariant PartialStop(stop, text) == PartialFrom(stop, text, charIndex + 1)
      {
        if stop[charIndex] == textLastChar {
          var currentPartial := stop[..charIndex + 1];
          if EndsWith(text, currentPartial) {
            return Some(|text| - charIndex - 1);
          }
        } else if HeldBack(stop, text, charIndex + 1) {
          HeldBackLastByte(stop, text, charIndex + 1);
          assert false;
        }
        charIndex := charIndex - 1;
      }
    }
    return None;
  }

  /** A found stop: the offset in the searched text and the index of the word in the list. */
  datatype Hit = Hit(pos: nat, word: nat)

  /** Full search looks for the word in the tail that the last piece can have completed. */
  function Window(text: Text, word: Text, last: nat): nat {
    if |text| > |word| + last then |text| - (|word| + last) else 0
  }

  function Search(text: Text, word: Text, last: nat, full: bool): (r: Option<nat>)
    ensures r.Some? ==> r.value <= |text|
  {
    if full then Find(text, word, Window(text, word, last)) else PartialStop(word, text)
  }

  /** Earliest hit among the first `n` words; the first word wins a tie. */
  function EarliestOf(text: Text, words: seq<Text>, last: nat, full: bool, n: nat): (r: Option<Hit>)
    requires n <= |words|
    ensures r.Some? ==> r.value.word < n && r.value.pos <= |text|
  {
    if n == 0 then None else
    var r := EarliestOf(text, words, last, full, n - 1);
    var p := Search(text, words[n - 1], last, full);
    if p.Some? && (r.None? || p.value < r.value.pos) then Some(Hit(p.value, n - 1)) else r
  }

  /** The hit is where its own word is found; no word is found earlier, and none before it in the list as early. */
  lemma {:induction false} EarliestOfIsFirst(text: Text, words: seq<Text>, last: nat, full: bool, n: nat)
    requires n <= |words|
    ensures var r := EarliestOf(text, words, last, full, n);
            && (r.Some? ==> Search(text, words[r.value.word], last, full) == Some(r.value.pos))
            && (forall i :: 0 <= i < n && Search(text, words[i], last, full).Some? ==>
                  && r.Some?
                  && r.value.pos <= Search(text, words[i], last, full).value
                  && (i < r.value.word ==> r.value.pos < Search(text, words[i], last, full).value))
  {
    if n > 0 { EarliestOfIsFirst(text, words, last, full, n - 1); }
  }

  function StopHit(text: Text, words: seq<Text>, last: nat, full: bool): Option<Hit> {
    EarliestOf(text, words, last, full, |words|)
  }

  /** Some stop word occurs at offset `p`. */
  predicate StopsAt(text: Text, words: seq<Text>, p: nat) {
    exists i :: 0 <= i < |words| && OccursAt(text, words[i], p)
  }

  /** The naive detector: the earliest offset, at or after `from`, at which some stop word occurs. */
  function NaiveFrom(text: Text, words: seq<Text>, from: nat): (r: Option<nat>)
    ensures r.Some? ==> from <= r.value && StopsAt(text, words, r.value)
    ensures forall p :: from <= p < (if r.Some? then r.value else |text| + 1) ==> !StopsAt(text, words, p)
    decreases |text| + 1 - from
  {
    if from > |text| then None
    else if StopsAt(text, words, from) then Some(from)
    else NaiveFrom(text, words, from + 1)
  }

  function Naive(text: Text, words: seq<Text>): Option<nat> { NaiveFrom(text, words, 0) }

  /** Some stop word occurs at `p` and is not over before the last `last` bytes begin. */
  predicate StopsLate(text: Text, words: seq<Text>, last: nat, p: nat) {
    exists i :: 0 <= i < |words| && OccursAt(text, words[i], p) && p + |words[i]| + last >= |text|
  }

  /** What a full search reports is a late stop. */
  lemma HitIsLateStop(text: Text, words: seq<Text>, last: nat)
    requires StopHit(text, words, last, true).Some?
    ensures var hit := StopHit(text, words, last, true).value;
            && OccursAt(text, words[hit.word], hit.pos)
            && StopsAt(text, words, hit.pos)
            && StopsLate(text, words, last, hit.pos)
  {
    EarliestOfIsFirst(text, words, last, true, |words|);
    var hit := StopHit(text, words, last, true).value;
    assert OccursAt(text, words[hit.word], hit.pos);
  }

  /** A late occurrence is not passed by the full search. */
  lemma LateStopIsHit(text: Text, words: seq<Text>, last: nat, p: nat)
    requires StopsLate(text, words, last, p)
    ensures var hit := StopHit(text, words, last, true); hit.Some? && hit.value.pos <= p
  {
    var i :| 0 <= i < |words| && OccursAt(text, words[i], p) && p + |words[i]| + last >= |text|;
    assert Window(text, words[i], last) <= p;
    EarliestOfIsFirst(text, words, last, true, |words|);
    assert Search(text, words[i], last, true).Some?;
  }

  /** The windowed search agrees with the naive one exactly when the naive one finds nothing, or some
      stop word at the earliest offset ends no earlier than where the last piece begins. */
  lemma WindowedSearchIsNaive(text: Text, words: seq<Text>, last: nat)
    ensures var hit, naive := StopHit(text, words, last, true), Naive(text, words);
            (if hit.Some? then Some(hit.value.pos) else None) == naive
            <==> (naive.None? || StopsLate(text, words, last, naive.value))
  {
    if StopHit(text, words, last, true).Some? { HitIsLateStop(text, words, last); }
    var naive := Naive(text, words);
    if naive.Some? && StopsLate(text, words, last, naive.value) {
      LateStopIsHit(text, words, last, naive.value);
    }
  }

  /** What the windowed search misses: with stop word "a", the text "a12" and a last piece "2". */
  lemma WindowCanMiss()
    ensures StopHit([97, 49, 50], [[97]], 1, true).None?
    ensures Naive([97, 49, 50], [[97]]) == Some(0)
  {
    var text: Text, words: seq<Text> := [97, 49, 50], [[97]];
    assert OccursAt(text, words[0], 0);
    assert StopsAt(text, words, 0);
    assert text[1..2] == [49] && text[2..3] == [50];
    assert Search(text, words[0], 1, true).None?;
  }
}
