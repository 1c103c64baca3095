/** Stock datatypes, and the small part of Rust's text library the engine's code leans on. */
module Common {

  datatype Option<+T> = None | Some(value: T)

  datatype Result<+T> = Ok(value: T) | Err(error: string)

  type Byte = b: int | 0 <= b < 256

  predicate Distinct<T(==)>(s: seq<T>) {
    forall i, j :: 0 <= i < j < |s| ==> s[i] != s[j]
  }

  lemma Associates<T>(a: seq<T>, b: seq<T>, c: seq<T>)
    ensures a + b + c == a + (b + c)
  {
  }

  const U32_MAX: nat := 0xFFFF_FFFF
  const U64_MAX: nat := 0xFFFF_FFFF_FFFF_FFFF

  /** `char::is_whitespace`: the Unicode White_Space property. */
  predicate IsWhitespace(c: char) {
    var n := c as int;
    9 <= n <= 13 || n == 0x20 || n == 0x85 || n == 0xA0 || n == 0x1680 || 0x2000 <= n <= 0x200A ||
    n == 0x2028 || n == 0x2029 || n == 0x202F || n == 0x205F || n == 0x3000
  }

  /** `str::trim_start`. */
  function TrimStart(s: string): string {
    if s != "" && IsWhitespace(s[0]) then TrimStart(s[1..]) else s
  }

  /** `str::trim_end`. */
  function TrimEnd(s: string): string {
    if s != "" && IsWhitespace(s[|s| - 1]) then TrimEnd(s[..|s| - 1]) else s
  }

  /** `str::trim`. */
  function Trim(s: string): string {
    TrimEnd(TrimStart(s))
  }

  predicate IsBlank(s: string) {
    forall c :: c in s ==> IsWhitespace(c)
  }

  /** `line.trim().is_empty()` holds exactly of the lines made of whitespace. */
  lemma {:induction false} TrimEmptyIffBlank(s: string)
    ensures Trim(s) == "" <==> IsBlank(s)
  {
    if s == "" {
    } else if IsWhitespace(s[0]) {
      TrimEmptyIffBlank(s[1..]);
      assert s == [s[0]] + s[1..];
    } else {
      TrimEndKeepsFirst(s);
      assert s[0] in s;
    }
  }

  lemma {:induction false} TrimEndKeepsFirst(s: string)
    requires s != "" && !IsWhitespace(s[0])
    ensures TrimEnd(s) != "" && TrimEnd(s)[0] == s[0]
  {
    if IsWhitespace(s[|s| - 1]) {
      TrimEndKeepsFirst(s[..|s| - 1]);
    }
  }

  function DigitChar(d: nat): char
    requires d < 10
  {
    "0123456789"[d]
  }

  /** The decimal text `format!("{n}")` gives. */
  function Decimal(n: nat): string {
    if n < 10 then [DigitChar(n)] else Decimal(n / 10) + [DigitChar(n % 10)]
  }

  /** `char::to_digit`. */
  function DigitValue(c: char, radix: nat): Option<nat>
    requires radix == 10 || radix == 16
  {
    if '0' <= c <= '9' then Some(c as int - '0' as int)
    else if radix == 16 && 'a' <= c <= 'f' then Some(c as int - 'a' as int + 10)
    else if radix == 16 && 'A' <= c <= 'F' then Some(c as int - 'A' as int + 10)
    else None
  }

  function DigitsValue(s: string, radix: nat): Option<nat>
    requires radix == 10 || radix == 16
  {
    if s == "" then Some(0)
    else
      match (DigitsValue(s[..|s| - 1], radix), DigitValue(s[|s| - 1], radix))
      case (Some(high), Some(low)) => Some(high * radix + low)
      case _ => None
  }

  /** Rust's `from_str_radix` on an unsigned type: one leading `+` is allowed, at least one digit
      is needed, and a value over `max` is an error. */
  function FromStrRadix(s: string, radix: nat, max: nat): Option<nat>
    requires radix == 10 || radix == 16
  {
    var digits := if s != "" && s[0] == '+' then s[1..] else s;
    if digits == "" then None
    else
      match DigitsValue(digits, radix)
      case Some(value) => if value <= max then Some(value) else None
      case None => None
  }

  lemma DigitReadsBack(d: nat)
    requires d < 10
    ensures '0' <= DigitChar(d) <= '9' && DigitValue(DigitChar(d), 10) == Some(d)
  {
    assert DigitChar(d) as int == '0' as int + d;
  }

  /** Decimal text is made of digits and reads back as the number. */
  lemma {:induction false} DecimalReadsBack(n: nat)
    ensures Decimal(n) != ""
    ensures forall c :: c in Decimal(n) ==> '0' <= c <= '9'
    ensures DigitsValue(Decimal(n), 10) == Some(n)
  {
    DigitReadsBack(n % 10);
    if n >= 10 {
      DecimalReadsBack(n / 10);
    }
    assert Decimal(n)[..|Decimal(n)| - 1] == if n < 10 then "" else Decimal(n / 10);
    assert Decimal(n)[|Decimal(n)| - 1] == DigitChar(n % 10);
  }

  lemma DecimalInjective(m: nat, n: nat)
    requires Decimal(m) == Decimal(n)
    ensures m == n
  {
    DecimalReadsBack(m);
    DecimalReadsBack(n);
  }

  /** The position of the first `c` in `s`, or `|s|`. */
  function FindChar(s: string, c: char): (at: nat)
    ensures at <= |s|
    ensures c !in s[..at]
    ensures at < |s| ==> s[at] == c
  {
    if s == "" || s[0] == c then 0
    else
      var rest := FindChar(s[1..], c);
      assert s[..1 + rest] == [s[0]] + s[1..][..rest];
      1 + rest
  }

  lemma FindCharNone(s: string, c: char)
    requires c !in s
    ensures FindChar(s, c) == |s|
  {
  }

  /** A text splits only one way at its first `c`. */
  lemma FindCharAfter(before: string, c: char, after: string)
    requires c !in before
    ensures FindChar(before + [c] + after, c) == |before|
  {
    var s := before + [c] + after;
    var at := FindChar(s, c);
    assert forall k :: 0 <= k < |before| ==> s[k] == before[k] && s[k] in before;
    assert forall k :: 0 <= k < at ==> s[k] == s[..at][k] && s[k] != c;
    assert s[|before|] == c;
  }

  predicate EndsWithCr(line: string) {
    line != "" && line[|line| - 1] == '\r'
  }

  function StripCr(line: string): string {
    if EndsWithCr(line) then line[..|line| - 1] else line
  }

  /** `str::lines`: the line ends are `\n` and `\r\n`; a last line without one keeps its `\r`. */
  function Lines(s: string): seq<string>
    decreases |s|
  {
    if s == "" then []
    else
      var at := FindChar(s, '\n');
      if at == |s| then [s] else [StripCr(s[..at])] + Lines(s[at + 1..])
  }

  /** Every line followed by a newline. */
  function Unlines(ls: seq<string>): string {
    if ls == [] then "" else ls[0] + "\n" + Unlines(ls[1..])
  }

  lemma {:induction false} LinesHoldNoNewline(s: string)
    ensures forall l :: l in Lines(s) ==> '\n' !in l
    decreases |s|
  {
    if s != "" {
      var at := FindChar(s, '\n');
      if at < |s| {
        LinesHoldNoNewline(s[at + 1..]);
      }
    }
  }

  function StripAll(ls: seq<string>): seq<string> {
    seq(|ls|, i requires 0 <= i < |ls| => StripCr(ls[i]))
  }

  /** What reading printed lines back gives: each loses the `\r` it ends with. */
  lemma {:induction false} LinesOfUnlines(ls: seq<string>)
    requires forall l :: l in ls ==> '\n' !in l
    ensures Lines(Unlines(ls)) == StripAll(ls)
  {
    if ls != [] {
      var text := Unlines(ls);
      assert text == ls[0] + ['\n'] + Unlines(ls[1..]);
      FindCharAfter(ls[0], '\n', Unlines(ls[1..]));
      assert text[..|ls[0]|] == ls[0];
      assert text[|ls[0]| + 1..] == Unlines(ls[1..]);
      LinesOfUnlines(ls[1..]);
      assert StripAll(ls) == [StripCr(ls[0])] + StripAll(ls[1..]);
    }
  }
}
