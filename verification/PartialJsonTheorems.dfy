/** What the partial reader promises: what it has read only grows as text arrives, and of an object of
    string fields, in any spacing and any escaping that section 7 of RFC 8259 allows, it reads exactly
    the characters whose encoding has arrived. */
module PartialJsonTheorems {
  import opened Common
  import opened PartialJson

  // ---------------------------------------------------------------- more text, longer value

  lemma TurnGrows(p: string, x: string)
    requires NextTurn(p).Take?
    ensures NextTurn(p + x) == NextTurn(p)
  {
    if p[0] == '\\' && ShortMeaning(p[1]).None? {
      assert (p + x)[2..] == p[2..] + x;
      Hex4Grows(p[2..], x);
      if |p| >= 8 {
        assert (p + x)[6..] == p[6..] + x && (p[6..] + x)[2..] == p[6..][2..] + x;
        Hex4Grows(p[6..][2..], x);
      }
    }
  }

  lemma Hex4Grows(p: string, x: string)
    ensures Hex4(p).Some? ==> Hex4(p + x) == Hex4(p)
  {
    if |p| >= 4 {
      assert (p + x)[..4] == p[..4];
    }
  }

  lemma {:induction false} UnescapeGrows(p: string, x: string)
    ensures Unescape(p) <= Unescape(p + x)
    decreases |p|
  {
    var turn := NextTurn(p);
    if turn.Take? {
      TurnGrows(p, x);
      assert (p + x)[turn.length..] == p[turn.length..] + x;
      UnescapeGrows(p[turn.length..], x);
    }
  }

  lemma {:induction false} TrimStartGrows(p: string, x: string)
    ensures TrimStart(p) != "" ==> TrimStart(p + x) == TrimStart(p) + x
  {
    if p != "" {
      assert (p + x)[1..] == p[1..] + x;
      TrimStartGrows(p[1..], x);
    }
  }

  lemma AfterColonGrows(p: string, x: string)
    ensures AfterColon(p).Some? ==>
              AfterColon(p + x).Some? &&
              (AfterColon(p).value != "" ==> AfterColon(p + x).value == AfterColon(p).value + x)
    ensures AfterColon(p).None? && TrimStart(p) != "" ==> AfterColon(p + x).None?
  {
    TrimStartGrows(p, x);
    if TrimStart(p) != "" {
      var r := TrimStart(p);
      assert (r + x)[1..] == r[1..] + x;
      TrimStartGrows(r[1..], x);
    }
  }

  lemma {:induction false} BlankHasNoField(json: string, pattern: string)
    requires TrimStart(json) == "" && pattern != "" && pattern[0] == '\"'
    ensures FieldAt(json, pattern) == None
  {
    if json != "" {
      BlankHasNoField(json[1..], pattern);
    }
  }

  /** However the text goes on, the value shown so far is a prefix of the value shown then. */
  lemma {:induction false} FieldGrows(json: string, x: string, pattern: string)
    requires pattern != "" && pattern[0] == '\"'
    ensures FieldAt(json, pattern).Some? ==> FieldAt(json + x, pattern).Some?
    ensures Shown(FieldAt(json, pattern)) <= Shown(FieldAt(json + x, pattern))
    decreases |json|
  {
    if |json| < |pattern| {
    } else if pattern <= json {
      var rest := json[|pattern|..];
      assert (json + x)[|pattern|..] == rest + x;
      AfterColonGrows(rest, x);
      if TrimStart(rest) == "" {
        BlankHasNoField(rest, pattern);
      } else if AfterColon(rest).None? {
        FieldGrows(rest, x, pattern);
      } else if AfterColon(rest).value != "" {
        var value := AfterColon(rest).value;
        assert (value + x)[1..] == value[1..] + x;
        UnescapeGrows(value[1..], x);
      }
    } else {
      assert !(pattern <= json + x) by {
        assert (json + x)[..|pattern|] == json[..|pattern|];
      }
      assert (json + x)[1..] == json[1..] + x;
      FieldGrows(json[1..], x, pattern);
    }
  }

  // ---------------------------------------------------------------- encodings of a string

  /** How one character of a JSON string is written. */
  datatype Unit = Raw(c: char) | Short(letter: char) | Code(digits: string) | Pair(high: string, low: string)

  predicate IsHex(digits: string) {
    |digits| == 4 && forall i :: 0 <= i < 4 ==> DigitValue(digits[i], 16).Some?
  }

  function HexValue(digits: string): nat
    requires IsHex(digits)
  {
    DigitValue(digits[0], 16).value * 0x1000 + DigitValue(digits[1], 16).value * 0x100 +
    DigitValue(digits[2], 16).value * 0x10 + DigitValue(digits[3], 16).value
  }

  predicate Legal(u: Unit) {
    match u
    case Raw(c) => c >= ' ' && c != '\"' && c != '\\'
    case Short(letter) => ShortMeaning(letter).Some?
    case Code(digits) => IsHex(digits) && !(0xD800 <= HexValue(digits) < 0xE000)
    case Pair(high, low) =>
      IsHex(high) && IsHex(low) && 0xD800 <= HexValue(high) < 0xDC00 && 0xDC00 <= HexValue(low) < 0xE000
  }

  predicate AllLegal(units: seq<Unit>) {
    forall i :: 0 <= i < |units| ==> Legal(units[i])
  }

  function UnitText(u: Unit): string {
    match u
    case Raw(c) => [c]
    case Short(letter) => "\\" + [letter]
    case Code(digits) => "\\u" + digits
    case Pair(high, low) => "\\u" + high + ("\\u" + low)
  }

  /** The character it stands for (for a pair, as section 3 of RFC 2781 computes it). */
  function UnitMeaning(u: Unit): char
    requires Legal(u)
  {
    match u
    case Raw(c) => c
    case Short(letter) => ShortMeaning(letter).value
    case Code(digits) => HexValueBound(digits); HexValue(digits) as char
    case Pair(high, low) => (0x10000 + (HexValue(high) - 0xD800) * 0x400 + (HexValue(low) - 0xDC00)) as char
  }

  lemma HexValueBound(digits: string)
    requires IsHex(digits)
    ensures HexValue(digits) <= 0xFFFF
  {
    assert forall i :: 0 <= i < 4 ==> DigitValue(digits[i], 16).value <= 15;
  }

  function Encode(units: seq<Unit>): string {
    if units == [] then "" else UnitText(units[0]) + Encode(units[1..])
  }

  function Meaning(units: seq<Unit>): string
    requires AllLegal(units)
  {
    if units == [] then "" else [UnitMeaning(units[0])] + Meaning(units[1..])
  }

  lemma Hex4Reads(digits: string, rest: string)
    requires IsHex(digits)
    ensures Hex4(digits + rest) == Some(HexValue(digits))
  {
    assert (digits + rest)[..4] == digits;
    assert digits[0] != '+';
    HexValueBound(digits);
    assert digits[..3][..2] == digits[..2] && digits[..2][..1] == digits[..1] && digits[..1][..0] == "";
    assert DigitsValue(digits[..1], 16) == Some(DigitValue(digits[0], 16).value);
    assert DigitsValue(digits[..2], 16).Some?;
    assert DigitsValue(digits[..3], 16).Some?;
  }

  lemma ReadCode(digits: string, rest: string)
    requires Legal(Code(digits))
    ensures NextTurn("\\u" + digits + rest) == Take([UnitMeaning(Code(digits))], 6)
  {
    assert ("\\u" + digits + rest)[2..] == digits + rest;
    Hex4Reads(digits, rest);
    HexValueBound(digits);
  }

  lemma ReadLow(high: nat, low: string, rest: string)
    requires 0xD800 <= high < 0xDC00 && IsHex(low) && 0xDC00 <= HexValue(low) < 0xE000
    ensures PairTurn(high, "\\u" + low + rest) ==
            Take([(0x10000 + (high - 0xD800) * 0x400 + (HexValue(low) - 0xDC00)) as char], 12)
  {
    assert ("\\u" + low + rest)[2..] == low + rest;
    Hex4Reads(low, rest);
    assert (HexValue(low) + 0x1_0000_0000 - 0xDC00) % 0x400 == HexValue(low) - 0xDC00;
  }

  lemma ReadPair(high: string, low: string, rest: string)
    requires Legal(Pair(high, low))
    ensures NextTurn("\\u" + high + ("\\u" + low + rest)) == Take([UnitMeaning(Pair(high, low))], 12)
  {
    var second := "\\u" + low + rest;
    var body := "\\u" + high + second;
    assert body[2..] == high + second && body[6..] == second;
    Hex4Reads(high, second);
    ReadLow(HexValue(high), low, rest);
  }

  lemma ReadUnit(u: Unit, rest: string)
    requires Legal(u)
    ensures NextTurn(UnitText(u) + rest) == Take([UnitMeaning(u)], |UnitText(u)|)
  {
    match u
    case Raw(_) =>
    case Short(_) =>
    case Code(digits) => ReadCode(digits, rest);
    case Pair(high, low) =>
      ReadPair(high, low, rest);
      Associates("\\u" + high, "\\u" + low, rest);
  }

  lemma UnescapeUnit(u: Unit, more: string)
    requires Legal(u)
    ensures Unescape(UnitText(u) + more) == [UnitMeaning(u)] + Unescape(more)
  {
    ReadUnit(u, more);
    assert (UnitText(u) + more)[|UnitText(u)|..] == more;
  }

  lemma {:induction false} ReadUnits(units: seq<Unit>, rest: string)
    requires AllLegal(units)
    ensures Unescape(Encode(units) + rest) == Meaning(units) + Unescape(rest)
  {
    if units == [] {
      assert Encode(units) + rest == rest && Meaning(units) + Unescape(rest) == Unescape(rest);
    } else {
      Associates(UnitText(units[0]), Encode(units[1..]), rest);
      UnescapeUnit(units[0], Encode(units[1..]) + rest);
      ReadUnits(units[1..], rest);
      Associates([UnitMeaning(units[0])], Meaning(units[1..]), Unescape(rest));
    }
  }

  lemma CutUnit(u: Unit, k: nat)
    requires Legal(u) && k < |UnitText(u)|
    ensures Unescape(UnitText(u)[..k]) == ""
  {
    var cut := UnitText(u)[..k];
    if u.Pair? && k >= 6 {
      CutPair(u.high, "\\u" + u.low, k);
      Hex4Reads(u.high, cut[6..]);
    }
  }

  lemma CutPair(high: string, second: string, k: nat)
    requires |high| == 4 && 6 <= k <= 6 + |second|
    ensures ("\\u" + high + second)[..k][2..] == high + ("\\u" + high + second)[..k][6..]
  {
    var cut := ("\\u" + high + second)[..k];
    assert cut[2] == high[0] && cut[3] == high[1] && cut[4] == high[2] && cut[5] == high[3];
    assert cut[2..6] == high;
  }

  /** How many characters have fully arrived when `k` characters of the encoding have. */
  function Whole(units: seq<Unit>, k: nat): (n: nat)
    ensures n <= |units|
  {
    if units == [] || k < |UnitText(units[0])| then 0 else 1 + Whole(units[1..], k - |UnitText(units[0])|)
  }

  lemma {:induction false} WholeIsExact(units: seq<Unit>, k: nat, n: nat)
    requires n <= |units| && AllLegal(units)
    ensures n <= Whole(units, k) <==> |Encode(units[..n])| <= k
  {
    if n > 0 {
      assert units[..n][1..] == units[1..][..n - 1];
      if k >= |UnitText(units[0])| {
        WholeIsExact(units[1..], k - |UnitText(units[0])|, n - 1);
      }
    }
  }

  lemma MeaningOfWhole(units: seq<Unit>, n: nat)
    requires AllLegal(units) && n < |units|
    ensures Meaning(units[..n + 1]) == [UnitMeaning(units[0])] + Meaning(units[1..][..n])
  {
    assert units[..n + 1][1..] == units[1..][..n];
  }

  /** Whatever is cut off, exactly the characters that fully arrived are read. */
  lemma {:induction false} CutReadsWhole(units: seq<Unit>, k: nat)
    requires AllLegal(units) && k <= |Encode(units)|
    ensures Unescape(Encode(units)[..k]) == Meaning(units[..Whole(units, k)])
  {
    if units != [] {
      var text := UnitText(units[0]);
      if k < |text| {
        assert Encode(units)[..k] == text[..k];
        CutUnit(units[0], k);
      } else {
        var more := Encode(units[1..])[..k - |text|];
        assert Encode(units)[..k] == text + more;
        UnescapeUnit(units[0], more);
        CutReadsWhole(units[1..], k - |text|);
        MeaningOfWhole(units, Whole(units[1..], k - |text|));
      }
    }
  }
}
