/** The JSON writer of the Java side (`JsonParameters.toJsonString`, `InferenceParameters.setStopStrings`)
    on UTF-16 code units, against a reader written from sections 5 and 7 of RFC 8259. */
module JsonQuote {
  import opened Wrappers

  type Unit = c: int | 0 <= c < 0x10000
  type Str = seq<Unit>

  const QUOTE: Unit := 0x22
  const BACKSLASH: Unit := 0x5C
  const SLASH: Unit := 0x2F
  const LESS: Unit := 0x3C
  const COMMA: Unit := 0x2C
  const SPACE: Unit := 0x20
  const OPEN: Unit := 0x5B
  const CLOSE: Unit := 0x5D
  const NULL: Str := [0x6E, 0x75, 0x6C, 0x6C]

  // ------------------------------------------------------------------ the writer

  function HexDigit(d: nat): Unit
    requires d < 16
  {
    if d < 10 then 0x30 + d else 0x57 + d
  }

  /** `Integer.toHexString`: lower-case digits without leading zeros. */
  function ToHex(n: nat): (r: Str)
    ensures r != []
  {
    if n < 16 then [HexDigit(n)] else ToHex(n / 16) + [HexDigit(n % 16)]
  }

  predicate Hidden(c: Unit) {
    c < 0x20 || 0x80 <= c < 0xA0 || 0x2000 <= c < 0x2100
  }

  lemma HexOfTwo(n: nat)
    requires n < 0x100
    ensures ToHex(n) == if n < 16 then [HexDigit(n)] else [HexDigit(n / 16), HexDigit(n % 16)]
  {
  }

  lemma HexOfFour(n: nat)
    requires 0x100 <= n < 0x10000
    ensures ToHex(n) == ToHex(n / 0x100) + [HexDigit(n / 16 % 16), HexDigit(n % 16)]
  {
    assert n / 16 / 16 == n / 0x100;
    assert ToHex(n / 16) == ToHex(n / 0x100) + [HexDigit(n / 16 % 16)];
  }

  /** The padded digits of `n`. */
  function FourDigits(n: nat): Str
    requires n < 0x10000
  {
    [HexDigit(n / 0x1000), HexDigit(n / 0x100 % 16), HexDigit(n / 16 % 16), HexDigit(n % 16)]
  }

  lemma LowHasFourDigits(c: Unit)
    requires c < 0x100
    ensures |ToHex(c)| <= 2 && seq(4 - |ToHex(c)|, _ => 0x30) + ToHex(c) == FourDigits(c)
  {
    HexOfTwo(c);
  }

  lemma HighHasFourDigits(c: Unit)
    requires c >= 0x100
    ensures 3 <= |ToHex(c)| <= 4 && seq(4 - |ToHex(c)|, _ => 0x30) + ToHex(c) == FourDigits(c)
  {
    HexOfFour(c);
    HexOfTwo(c / 0x100);
    assert c / 0x100 / 16 == c / 0x1000;
  }

  lemma HexHasFourDigits(c: Unit)
    ensures |ToHex(c)| <= 4
    ensures seq(4 - |ToHex(c)|, _ => 0x30) + ToHex(c) == FourDigits(c)
  {
    if c < 0x100 { LowHasFourDigits(c); } else { HighHasFourDigits(c); }
  }

  function UnicodeEscape(c: Unit): Str {
    HexHasFourDigits(c);
    [BACKSLASH, 0x75] + seq(4 - |ToHex(c)|, _ => 0x30) + ToHex(c)
  }

  /** What the writer appends for `c` when the unit before it is `prev` (0 at the start). */
  function Escaped(prev: Unit, c: Unit): Str {
    if c == BACKSLASH || c == QUOTE then [BACKSLASH, c]
    else if c == SLASH then (if prev == LESS then [BACKSLASH, c] else [c])
    else if c == 0x08 then [BACKSLASH, 0x62]
    else if c == 0x09 then [BACKSLASH, 0x74]
    else if c == 0x0A then [BACKSLASH, 0x6E]
    else if c == 0x0C then [BACKSLASH, 0x66]
    else if c == 0x0D then [BACKSLASH, 0x72]
    else if Hidden(c) then UnicodeEscape(c)
    else [c]
  }

  function Body(prev: Unit, text: Str): Str
    decreases |text|
  {
    if text == [] then [] else Escaped(prev, text[0]) + Body(text[0], text[1..])
  }

  function Quoted(text: Str): Str { [QUOTE] + Body(0, text) + [QUOTE] }

  /** The switch of `toJsonString`; `b` is the unit before `c`. */
  method AppendEscaped(before: Str, b: Unit, c: Unit) returns (builder: Str)
    ensures builder == before + Escaped(b, c)
  {
    builder := before;
    if c == BACKSLASH || c == QUOTE {
      builder := builder + [BACKSLASH];
      builder := builder + [c];
    } else if c == SLASH {
      if b == LESS {
        builder := builder + [BACKSLASH];
      }
      builder := builder + [c];
    } else if c == 0x08 {
      builder := builder + [BACKSLASH, 0x62];
    } else if c == 0x09 {
      builder := builder + [BACKSLASH, 0x74];
    } else if c == 0x0A {
      builder := builder + [BACKSLASH, 0x6E];
    } else if c == 0x0C {
      builder := builder + [BACKSLASH, 0x66];
    } else if c == 0x0D {
      builder := builder + [BACKSLASH, 0x72];
    } else if c < 0x20 || 0x80 <= c < 0xA0 || 0x2000 <= c < 0x2100 {
      builder := builder + [BACKSLASH, 0x75];
      var hhhh := ToHex(c);
      HexHasFourDigits(c);
      builder := builder + seq(4 - |hhhh|, _ => 0x30);
      builder := builder + hhhh;
    } else {
      builder := builder + [c];
    }
  }

  // toJsonString; `None` is Java's null
  method ToJsonString(text: Option<Str>) returns (r: Option<Str>)
    ensures r == if text.None? then None else Some(Quoted(text.value))
  {
    if text.None? { return None; }
    var t := text.value;
    ghost var body := Body(0, t);
    var builder: Str := [QUOTE];
    var b: Unit, c: Unit := 0, 0;
    var i := 0;
    assert t[0..] == t;
    while i < |t|
      invariant 0 <= i <= |t|
      invariant c == if i == 0 then 0 else t[i - 1]
      invariant [QUOTE] + body == builder + Body(c, t[i..])
    {
      ghost var was, prev := builder, c;
      b := c;
      c := t[i];
      builder := AppendEscaped(builder, b, c);
      BodyStep(prev, t, i);
      AppendIsAssociative(was, Escaped(prev, c), Body(c, t[i + 1..]));
      i := i + 1;
    }
    assert builder == [QUOTE] + body by { assert t[i..] == [] && builder + [] == builder; }
    builder := builder + [QUOTE];
    return Some(builder);
  }

  lemma BodyStep(prev: Unit, t: Str, i: nat)
    requires i < |t|
    ensures Body(prev, t[i..]) == Escaped(prev, t[i]) + Body(t[i], t[i + 1..])
  {
    assert t[i..][1..] == t[i + 1..];
  }

  lemma AppendIsAssociative(a: Str, b: Str, c: Str)
    ensures a + b + c == a + (b + c)
  {
  }

  // ------------------------------------------------------------------ the reader

  datatype Read<+T> = Fail | Got(value: T, rest: Str)

  function HexValue(c: Unit): Option<nat> {
    if 0x30 <= c <= 0x39 then Some(c - 0x30)
    else if 0x61 <= c <= 0x66 then Some(c - 0x57)
    else if 0x41 <= c <= 0x46 then Some(c - 0x37)
    else None
  }

  /** The two-character escapes of section 7. */
  function Popular(c: Unit): Option<Unit> {
    if c == QUOTE || c == BACKSLASH || c == SLASH then Some(c)
    else if c == 0x62 then Some(0x08)
    else if c == 0x66 then Some(0x0C)
    else if c == 0x6E then Some(0x0A)
    else if c == 0x72 then Some(0x0D)
    else if c == 0x74 then Some(0x09)
    else None
  }

  /** One `char` of the grammar: an unescaped unit from 20 up other than the quote and the backslash, a
      two-character escape, or a six-character one. */
  function ReadChar(s: Str): (r: Read<Unit>)
    ensures r.Got? ==> |r.rest| < |s|
  {
    if s == [] || s[0] < 0x20 || s[0] == QUOTE then Fail
    else if s[0] != BACKSLASH then Got(s[0], s[1..])
    else if |s| >= 2 && Popular(s[1]).Some? then Got(Popular(s[1]).value, s[2..])
    else if |s| >= 6 && s[1] == 0x75 && forall i :: 2 <= i < 6 ==> HexValue(s[i]).Some? then
      Got(HexValue(s[2]).value * 0x1000 + HexValue(s[3]).value * 0x100 + HexValue(s[4]).value * 16
          + HexValue(s[5]).value, s[6..])
    else Fail
  }

  function ReadBody(s: Str): Read<Str>
    decreases |s|
  {
    if s != [] && s[0] == QUOTE then Got([], s[1..]) else
    match ReadChar(s)
    case Fail => Fail
    case Got(c, rest) =>
      match ReadBody(rest)
      case Fail => Fail
      case Got(more, end) => Got([c] + more, end)
  }

  function ReadString(s: Str): Read<Str> {
    if s != [] && s[0] == QUOTE then ReadBody(s[1..]) else Fail
  }

  lemma DigitBack(d: nat)
    requires d < 16
    ensures HexValue(HexDigit(d)) == Some(d)
  {
  }

  lemma ReadFourDigits(c: Unit, s: Str)
    requires |s| >= 6 && s[0] == BACKSLASH && s[1] == 0x75
    requires s[2] == HexDigit(c / 0x1000) && s[3] == HexDigit(c / 0x100 % 16) && s[4] == HexDigit(c / 16 % 16)
             && s[5] == HexDigit(c % 16)
    ensures ReadChar(s) == Got(c, s[6..])
  {
    DigitBack(c / 0x1000);
    DigitBack(c / 0x100 % 16);
    DigitBack(c / 16 % 16);
    DigitBack(c % 16);
    HexSum(c);
  }

  lemma HexSum(c: Unit)
    ensures c / 0x1000 * 0x1000 + c / 0x100 % 16 * 0x100 + c / 16 % 16 * 16 + c % 16 == c
    ensures c / 0x1000 < 16
  {
  }

  lemma ReadUnicode(prev: Unit, c: Unit, rest: Str)
    requires |Escaped(prev, c)| > 2
    ensures ReadChar(Escaped(prev, c) + rest) == Got(c, rest) && Escaped(prev, c)[0] != QUOTE
  {
    HexHasFourDigits(c);
    var e := Escaped(prev, c);
    assert e == [BACKSLASH, 0x75] + FourDigits(c);
    ReadFourDigits(c, e + rest);
    assert (e + rest)[6..] == rest;
  }

  /** What the writer appends for one unit is read back as that unit, whatever follows. */
  lemma ReadEscaped(prev: Unit, c: Unit, rest: Str)
    ensures ReadChar(Escaped(prev, c) + rest) == Got(c, rest)
    ensures Escaped(prev, c)[0] != QUOTE
  {
    var s := Escaped(prev, c) + rest;
    if Escaped(prev, c) == [c] {
      assert s[1..] == rest;
    } else if |Escaped(prev, c)| == 2 {
      assert s[2..] == rest;
    } else {
      ReadUnicode(prev, c, rest);
    }
  }

  lemma {:induction false} ReadBodyBack(prev: Unit, text: Str, rest: Str)
    ensures ReadBody(Body(prev, text) + [QUOTE] + rest) == Got(text, rest)
    decreases |text|
  {
    if text == [] {
      assert ([QUOTE] + rest)[1..] == rest;
      assert Body(prev, text) + [QUOTE] + rest == [QUOTE] + rest;
    } else {
      var tail := Body(text[0], text[1..]) + [QUOTE] + rest;
      assert Body(prev, text) + [QUOTE] + rest == Escaped(prev, text[0]) + tail;
      ReadEscaped(prev, text[0], tail);
      ReadBodyBack(text[0], text[1..], rest);
      assert [text[0]] + text[1..] == text;
    }
  }

  /** Quoting round-trips: reading a quoted string gives back every sequence of UTF-16 units, and stops
      right behind it. */
  lemma QuoteRoundTrip(text: Str, rest: Str)
    ensures ReadString(Quoted(text) + rest) == Got(text, rest)
  {
    hide Body, ReadBody;
    ReadBodyBack(0, text, rest);
    assert (Quoted(text) + rest)[1..] == Body(0, text) + [QUOTE] + rest;
  }

  // ------------------------------------------------------------------ what quoting keeps out

  predicate Tidy(s: Str) {
    && (forall i :: 0 <= i < |s| ==> !Hidden(s[i]))
    && (forall i :: 0 <= i < |s| - 1 ==> !(s[i] == LESS && s[i + 1] == SLASH))
  }

  /** The escape of one unit is tidy, and ends in '<' or begins with '/' only where the unit itself does. */
  lemma EscapedIsTidy(prev: Unit, c: Unit)
    ensures var e := Escaped(prev, c);
            && e != [] && Tidy(e)
            && (e[|e| - 1] == LESS ==> c == LESS)
            && (e[0] == SLASH ==> prev != LESS)
  {
    if |Escaped(prev, c)| > 2 { UnicodeIsTidy(prev, c); }
  }

  lemma UnicodeIsTidy(prev: Unit, c: Unit)
    requires |Escaped(prev, c)| > 2
    ensures var e := Escaped(prev, c); Tidy(e) && e[|e| - 1] != LESS && e[0] != SLASH
  {
    HexHasFourDigits(c);
    assert Escaped(prev, c) == [BACKSLASH, 0x75] + FourDigits(c);
    hide Escaped;
    DigitsArePlain(c);
    hide FourDigits;
  }

  lemma DigitsArePlain(c: Unit)
    ensures |FourDigits(c)| == 4
    ensures forall i :: 0 <= i < 4 ==>
              !Hidden(FourDigits(c)[i]) && FourDigits(c)[i] != LESS && FourDigits(c)[i] != SLASH
  {
    DigitIsPlain(c / 0x1000);
    DigitIsPlain(c / 0x100 % 16);
    DigitIsPlain(c / 16 % 16);
    DigitIsPlain(c % 16);
    hide HexDigit, Hidden;
  }

  lemma DigitIsPlain(d: nat)
    requires d < 16
    ensures !Hidden(HexDigit(d)) && HexDigit(d) != LESS && HexDigit(d) != SLASH
  {
  }

  lemma {:induction false} BodyIsTidy(prev: Unit, text: Str)
    ensures Tidy(Body(prev, text))
    ensures prev == LESS && Body(prev, text) != [] ==> Body(prev, text)[0] != SLASH
    decreases |text|
  {
    if text != [] {
      BodyIsTidy(text[0], text[1..]);
      EscapedIsTidy(prev, text[0]);
    }
  }

  /** The quoted text has no control characters and no "</", which would end an HTML script. */
  lemma QuotedIsTidy(text: Str)
    ensures Tidy(Quoted(text))
  {
    BodyIsTidy(0, text);
  }

  // ------------------------------------------------------------------ arrays of strings

  /** Appending a null reference to a string builder appends its name. */
  function Item(s: Option<Str>): Str {
    if s.None? then NULL else Quoted(s.value)
  }

  function Items(list: seq<Option<Str>>): Str {
    if list == [] then [] else
    Item(list[0]) + (if |list| > 1 then [COMMA, SPACE] else []) + Items(list[1..])
  }

  lemma ItemsStep(was: Str, list: seq<Option<Str>>, i: nat)
    requires i < |list|
    ensures was + Items(list[i..])
            == (if i < |list| - 1 then was + Item(list[i]) + [COMMA, SPACE] else was + Item(list[i]))
               + Items(list[i + 1..])
  {
    assert list[i..][1..] == list[i + 1..];
  }

  function ArrayText(list: seq<Option<Str>>): Str { [OPEN] + Items(list) + [CLOSE] }

  const PARAM_STOP: string := "stop"

  class InferenceParameters {
    var parameters: map<string, Str>

    constructor()
      ensures parameters == map[]
    {
      parameters := map[];
    }

    // setStopStrings
    method SetStopStrings(stopStrings: seq<Option<Str>>) returns (self: InferenceParameters)
      modifies this
      ensures self == this
      ensures parameters == if stopStrings == [] then old(parameters)
                            else old(parameters)[PARAM_STOP := ArrayText(stopStrings)]
    {
      if |stopStrings| > 0 {
        var builder: Str := [OPEN];
        assert stopStrings[0..] == stopStrings;
        for i := 0 to |stopStrings|
          invariant parameters == old(parameters)
          invariant [OPEN] + Items(stopStrings) == builder + Items(stopStrings[i..])
        {
          ghost var was := builder;
          var quoted := ToJsonString(stopStrings[i]);
          builder := builder + if quoted.None? then NULL else quoted.value;
          if i < |stopStrings| - 1 {
            builder := builder + [COMMA, SPACE];
          }
          ItemsStep(was, stopStrings, i);
        }
        assert builder == [OPEN] + Items(stopStrings) by {
          assert stopStrings[|stopStrings|..] == [] && builder + [] == builder;
        }
        builder := builder + [CLOSE];
        parameters := parameters[PARAM_STOP := builder];
      }
      self := this;
    }
  }

  /** The four kinds of blank of section 2. */
  function SkipBlank(s: Str): (r: Str)
    ensures |r| <= |s|
  {
    if s != [] && s[0] in {0x20, 0x09, 0x0A, 0x0D} then SkipBlank(s[1..]) else s
  }

  /** A string or the literal null. */
  function ReadItem(s: Str): Read<Option<Str>> {
    if |s| >= 4 && s[..4] == NULL then Got(None, s[4..]) else
    match ReadString(s)
    case Fail => Fail
    case Got(v, rest) => Got(Some(v), rest)
  }

  /** The items behind the opening bracket or a comma, up to the closing bracket. */
  function ReadItems(s: Str): Read<seq<Option<Str>>>
    decreases |s|
  {
    match ReadItem(SkipBlank(s))
    case Fail => Fail
    case Got(v, rest) =>
      var r := SkipBlank(rest);
      if r != [] && r[0] == CLOSE then Got([v], r[1..])
      else if r != [] && r[0] == COMMA && |r| <= |s| then
        match ReadItems(r[1..])
        case Fail => Fail
        case Got(more, end) => Got([v] + more, end)
      else Fail
  }

  function ReadArray(s: Str): Read<seq<Option<Str>>> {
    var t := SkipBlank(s);
    if t == [] || t[0] != OPEN then Fail else
    var u := SkipBlank(t[1..]);
    if u != [] && u[0] == CLOSE then Got([], u[1..]) else ReadItems(u)
  }

  lemma ReadItemBack(s: Option<Str>, rest: Str)
    ensures ReadItem(Item(s) + rest) == Got(s, rest)
    ensures SkipBlank(Item(s) + rest) == Item(s) + rest
    ensures Item(s)[0] != CLOSE
  {
    if s.None? {
      assert (NULL + rest)[..4] == NULL && (NULL + rest)[4..] == rest;
    } else {
      QuoteRoundTrip(s.value, rest);
      assert (Item(s) + rest)[0] == QUOTE;
      if |Item(s) + rest| >= 4 { assert (Item(s) + rest)[..4][0] == QUOTE; }
    }
  }

  lemma {:induction false} ReadItemsBack(list: seq<Option<Str>>, rest: Str)
    requires list != []
    ensures ReadItems(Items(list) + [CLOSE] + rest) == Got(list, rest)
    decreases |list|
  {
    if |list| == 1 {
      var tail := [CLOSE] + rest;
      assert Items(list[1..]) == [];
      assert Items(list) + [CLOSE] + rest == Item(list[0]) + tail;
      ReadLastItem(list[0], rest);
      assert [list[0]] == list;
    } else {
      var more := Items(list[1..]) + [CLOSE] + rest;
      assert Items(list) + [CLOSE] + rest == Item(list[0]) + ([COMMA, SPACE] + more);
      ReadItemsBack(list[1..], rest);
      ReadFirstItem(list[0], list[1..], more, rest);
      assert [list[0]] + list[1..] == list;
    }
  }

  lemma ReadLastItem(item: Option<Str>, rest: Str)
    ensures ReadItems(Item(item) + ([CLOSE] + rest)) == Got([item], rest)
  {
    ReadItemBack(item, [CLOSE] + rest);
    assert ([CLOSE] + rest)[1..] == rest;
  }

  lemma ReadFirstItem(item: Option<Str>, others: seq<Option<Str>>, more: Str, rest: Str)
    requires ReadItems(more) == Got(others, rest)
    ensures ReadItems(Item(item) + ([COMMA, SPACE] + more)) == Got([item] + others, rest)
  {
    var tail := [COMMA, SPACE] + more;
    ReadItemBack(item, tail);
    assert tail[1..] == [SPACE] + more && ([SPACE] + more)[1..] == more;
    assert SkipBlank([SPACE] + more) == SkipBlank(more);
    assert ReadItems([SPACE] + more) == ReadItems(more);
    assert SkipBlank(tail) == tail;
  }

  lemma ArrayStarts(list: seq<Option<Str>>, rest: Str)
    requires list != []
    ensures var inner := Items(list) + [CLOSE] + rest; SkipBlank(inner) == inner && inner != [] && inner[0] != CLOSE
  {
    var inner := Items(list) + [CLOSE] + rest;
    var first := Item(list[0]);
    assert inner == first + inner[|first|..];
    ReadItemBack(list[0], inner[|first|..]);
  }

  /** Reading the array that `setStopStrings` writes gives back the stop strings in order (a null reference
      as the literal null). */
  lemma ArrayRoundTrip(list: seq<Option<Str>>, rest: Str)
    requires list != []
    ensures ReadArray(ArrayText(list) + rest) == Got(list, rest)
  {
    hide Items, ReadItems, ReadString, Item;
    assert (ArrayText(list) + rest)[1..] == Items(list) + [CLOSE] + rest;
    ReadItemsBack(list, rest);
    ArrayStarts(list, rest);
  }
}
