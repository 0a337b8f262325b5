/** The two UTF-8 scanners of utils.hpp: a whole-string check that walks forward over a text, and a
    tail check that looks at the last four bytes only. They are tied together by the character
    structure of section 3 of RFC 3629: lead bytes 0xxxxxxx, 110xxxxx, 1110xxxx, 11110xxx, each
    followed by the right number of bytes 10xxxxxx. */
module Utf8 {
  type Byte = c: int | 0 <= c < 0x100
  type Text = seq<Byte>

  // The source tests lead bytes with bit masks; a mask that keeps the high bits is a range test
  // (module Utf8Masks).
  predicate Ascii(c: Byte) { c <= 0x7F }
  predicate Lead2(c: Byte) { 0xC0 <= c < 0xE0 }
  predicate Lead3(c: Byte) { 0xE0 <= c < 0xF0 }
  predicate Lead4(c: Byte) { 0xF0 <= c < 0xF8 }
  predicate Continuation(c: Byte) { 0x80 <= c < 0xC0 }

  /** Length announced by a lead byte; 0 for a byte that cannot start a character. */
  function Announced(c: Byte): nat {
    if Ascii(c) then 1 else if Lead2(c) then 2 else if Lead3(c) then 3 else if Lead4(c) then 4 else 0
  }

  /** Length of the complete character at the front of `s`; 0 if there is none. */
  function CharLen(s: Text): (n: nat)
    ensures n <= |s| && n <= 4
  {
    if s == [] then 0 else
    var n := Announced(s[0]);
    if n <= |s| && forall i :: 1 <= i < n ==> Continuation(s[i]) then n else 0
  }

  /** A text is well formed when it is a sequence of complete characters. */
  predicate WellFormed(s: Text) {
    s == [] || (CharLen(s) > 0 && WellFormed(s[CharLen(s)..]))
  }

  /** `k` is the end of some (possibly empty) run of complete characters at the front of `s`. */
  predicate Boundary(s: Text, k: nat)
    decreases |s|
  {
    k == 0 || (0 < CharLen(s) <= k && Boundary(s[CharLen(s)..], k - CharLen(s)))
  }

  lemma WellFormedUnfold(s: Text)
    ensures s == [] ==> WellFormed(s)
    ensures s != [] ==> (WellFormed(s) <==> CharLen(s) > 0 && WellFormed(s[CharLen(s)..]))
  {
  }

  // is_valid_utf8
  method IsValidUtf8(str: Text) returns (ok: bool)
    ensures ok == WellFormed(str)
  {
    hide WellFormed;
    var p := 0;
    assert str[0..] == str;
    while p < |str|
      invariant 0 <= p <= |str|
      invariant WellFormed(str) == WellFormed(str[p..])
      decreases |str| - p
    {
      var c := str[p];
      ghost var rest := str[p..];
      WellFormedUnfold(rest);
      var n: nat;
      if c <= 0x7F {
        n := 1;
      } else if Lead2(c) {
        if |str| - p < 2 || !Continuation(str[p + 1]) { return false; }
        n := 2;
      } else if Lead3(c) {
        if |str| - p < 3 || !Continuation(str[p + 1]) || !Continuation(str[p + 2]) { return false; }
        n := 3;
      } else if Lead4(c) {
        if |str| - p < 4 || !Continuation(str[p + 1]) || !Continuation(str[p + 2]) || !Continuation(str[p + 3]) {
          return false;
        }
        n := 4;
      } else {
        return false;
      }
      assert CharLen(rest) == n;
      assert rest[n..] == str[p + n..];
      p := p + n;
    }
    WellFormedUnfold(str[p..]);
    return true;
  }

  /** The byte `i` places from the end announces a character longer than the `i` bytes that are left. */
  predicate CutAt(text: Text, i: nat) {
    1 <= i <= |text| && i <= 4 &&
    var c := text[|text| - i];
    (Lead2(c) && i < 2) || (Lead3(c) && i < 3) || (Lead4(c) && i < 4)
  }

  /** Where `validate_utf8` cuts. */
  function Validate(text: Text): (n: nat)
    ensures n <= |text| <= n + 3
  {
    if CutAt(text, 1) then |text| - 1
    else if CutAt(text, 2) then |text| - 2
    else if CutAt(text, 3) then |text| - 3
    else |text|
  }

  // validate_utf8
  method ValidateUtf8(text: Text) returns (n: nat)
    ensures n == Validate(text)
  {
    var len := |text|;
    if len == 0 { return 0; }
    var i := 1;
    while i <= 4 && i <= len
      invariant 1 <= i <= 5
      invariant forall j :: 1 <= j < i ==> !CutAt(text, j)
    {
      var c := text[len - i];
      if Lead2(c) {
        if i < 2 { return len - i; }
      } else if Lead3(c) {
        if i < 3 { assert CutAt(text, i); return len - i; }
      } else if Lead4(c) {
        if i < 4 { assert CutAt(text, i); return len - i; }
      }
      assert !CutAt(text, i);
      i := i + 1;
    }
    return len;
  }

  /** The tail check sees through a complete first character. */
  lemma ValidateSkipsCharacter(t: Text)
    requires CharLen(t) > 0
    ensures Validate(t) == CharLen(t) + Validate(t[CharLen(t)..])
  {
    var m := CharLen(t);
    var u := t[m..];
    forall i | 1 <= i <= 4
      ensures CutAt(t, i) == CutAt(u, i)
    {
      if i <= |u| {
        assert t[|t| - i] == u[|u| - i];
      } else if i <= |t| {
        // the byte lies in the first character, which is complete
        var q := |t| - i;
        assert q > 0 ==> Continuation(t[q]);
      }
    }
  }

  /** Of a character that is cut short, the tail check finds the lead byte. */
  lemma ValidateFindsLead(s: Text, k: nat)
    requires 0 < k < CharLen(s)
    ensures Validate(s[..k]) == 0
  {
    var t := s[..k];
    assert CutAt(t, k);
    forall i | 1 <= i < k
      ensures !CutAt(t, i)
    {
      assert Continuation(t[k - i]);
    }
  }

  /** A boundary is exactly a length whose prefix is itself well formed. */
  lemma {:induction false} BoundaryIsPrefix(s: Text, k: nat)
    requires k <= |s|
    ensures Boundary(s, k) <==> WellFormed(s[..k])
    decreases |s|
  {
    if k > 0 {
      var m, t := CharLen(s), s[..k];
      if 0 < m <= k {
        assert CharLen(t) == m;
        assert t[m..] == s[m..][..k - m];
        hide CharLen;
        BoundaryIsPrefix(s[m..], k - m);
      }
    }
  }

  lemma BoundaryIs(s: Text, k: nat)
    ensures Boundary(s, k) <==> k == 0 || (0 < CharLen(s) <= k && Boundary(s[CharLen(s)..], k - CharLen(s)))
  {
  }

  lemma ValidateInTail(s: Text, k: nat)
    requires 0 < CharLen(s) <= k <= |s|
    ensures Validate(s[..k]) == CharLen(s) + Validate(s[CharLen(s)..][..k - CharLen(s)])
  {
    var m, t := CharLen(s), s[..k];
    assert CharLen(t) == m && t[m..] == s[m..][..k - m];
    hide Validate, CharLen;
    ValidateSkipsCharacter(t);
  }

  /** The tail check of a prefix stops at a boundary, and no boundary lies between it and the cut. */
  lemma {:induction false} CutIsGreatestBoundary(s: Text, k: nat, j: nat)
    requires WellFormed(s) && k <= |s|
    ensures Boundary(s, Validate(s[..k]))
    ensures Validate(s[..k]) < j <= k ==> !Boundary(s, j)
    decreases |s|
  {
    hide *;
    BoundaryIs(s, Validate(s[..k]));
    BoundaryIs(s, j);
    WellFormedUnfold(s);
    var m := CharLen(s);
    if 0 < k < m {
      ValidateFindsLead(s, k);
    } else if k > 0 {
      ValidateInTail(s, k);
      CutIsGreatestBoundary(s[m..], k - m, if j >= m then j - m else 0);
    }
  }

  /** Of every well-formed text and every cut `k` of it, the tail check returns the greatest character
      boundary that is not above `k`; it lies at most 3 bytes back, and it is `k` exactly when
      the prefix is itself accepted by the whole-string check. */
  lemma CutIsExact(s: Text, k: nat)
    requires WellFormed(s) && k <= |s|
    ensures var b := Validate(s[..k]);
            && k - 3 <= b <= k
            && Boundary(s, b)
            && (forall j :: b < j <= k ==> !Boundary(s, j))
            && (b == k <==> WellFormed(s[..k]))
  {
    forall j | Validate(s[..k]) < j <= k
      ensures !Boundary(s, j)
    {
      CutIsGreatestBoundary(s, k, j);
    }
    CutIsGreatestBoundary(s, k, k);
    BoundaryIsPrefix(s, k);
  }

  lemma BoundaryUnfold(s: Text, k: nat)
    requires WellFormed(s) && 0 < k <= |s| && Boundary(s, k)
    ensures var m := CharLen(s); 0 < m <= k && WellFormed(s[m..]) && Boundary(s[m..], k - m)
  {
    hide CharLen;
  }

  lemma MiddleOfTail(s: Text, m: nat, i: nat, j: nat)
    requires m <= i <= j <= |s|
    ensures s[m..][i - m..j - m] == s[i..j]
  {
  }

  /** Between two boundaries lies well-formed text. */
  lemma {:induction false} BetweenBoundaries(s: Text, i: nat, j: nat)
    requires WellFormed(s) && i <= j <= |s|
    requires Boundary(s, i) && Boundary(s, j)
    ensures WellFormed(s[i..j])
    decreases |s|
  {
    hide *;
    if i == 0 {
      BoundaryIsPrefix(s, j);
      assert s[0..j] == s[..j];
    } else {
      var m := CharLen(s);
      BoundaryUnfold(s, i);
      BoundaryUnfold(s, j);
      MiddleOfTail(s, m, i, j);
      BetweenBoundaries(s[m..], i - m, j - m);
    }
  }

  /** In a well-formed text a byte that is not a continuation byte starts a character. */
  lemma {:induction false} LeadIsBoundary(s: Text, q: nat)
    requires WellFormed(s) && q < |s| && !Continuation(s[q])
    ensures Boundary(s, q)
    decreases |s|
  {
    if q > 0 {
      var m := CharLen(s);
      assert q >= m;
      LeadIsBoundary(s[m..], q - m);
    }
  }

  /** A non-empty well-formed text does not begin with a continuation byte. */
  lemma WellFormedStart(s: Text)
    requires WellFormed(s) && s != []
    ensures !Continuation(s[0])
  {
    assert CharLen(s) > 0;
    assert Announced(s[0]) > 0;
  }
}

/** Ties the range tests to the mask tests; a module of its own, so that bit vectors stay out of the rest. */
module Utf8Masks {
  import opened Utf8

  /** The range tests are the mask tests of the source. */
  lemma MasksAreRanges(c: bv8)
    ensures c & 0xE0 == 0xC0 <==> Lead2(c as int)
    ensures c & 0xF0 == 0xE0 <==> Lead3(c as int)
    ensures c & 0xF8 == 0xF0 <==> Lead4(c as int)
    ensures c & 0xC0 == 0x80 <==> Continuation(c as int)
  {
    assert c & 0xE0 == 0xC0 <==> 0xC0 <= c < 0xE0;
    assert c & 0xF0 == 0xE0 <==> 0xE0 <= c < 0xF0;
    assert c & 0xF8 == 0xF0 <==> 0xF0 <= c < 0xF8;
    assert c & 0xC0 == 0x80 <==> 0x80 <= c < 0xC0;
  }
}
