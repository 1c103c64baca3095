/** Reading a string field of a JSON object that is still being written
    (crates/agent-core/src/plan_mode.rs). */
module PartialJson {
  import opened Common

  // ---------------------------------------------------------------- the text of a string

  /** What one turn of `unescape_partial`'s loop does: end, or take `length` characters for `text`. */
  datatype Turn = Stop | Take(text: string, length: nat)

  /** `char::from_u32`: nothing for a surrogate. */
  function FromU32(code: nat): string {
    if code < 0xD800 || 0xE000 <= code <= 0x10FFFF then [code as char] else ""
  }

  /** Four characters read as a hexadecimal number. */
  function Hex4(s: string): Option<nat> {
    if |s| < 4 then None else FromStrRadix(s[..4], 16, U32_MAX)
  }

  function ShortMeaning(letter: char): Option<char> {
    match letter
    case 'n' => Some('\n')
    case 't' => Some('\t')
    case 'r' => Some('\r')
    case 'b' => Some(8 as char)
    case 'f' => Some(12 as char)
    case '\"' => Some(letter)
    case '\\' => Some(letter)
    case '/' => Some(letter)
    case _ => None
  }

  /** The code point of a high half and the four digits after it, whatever they are. */
  function PairCode(high: nat, low: nat): nat
    requires 0xD800 <= high < 0xDC00
  {
    0x10000 + (high - 0xD800) * 0x400 + (low + 0x1_0000_0000 - 0xDC00) % 0x400
  }

  function PairTurn(high: nat, rest: string): Turn
    requires 0xD800 <= high < 0xDC00
  {
    if |rest| < 2 || rest[0] != '\\' || rest[1] != 'u' then Stop
    else
      match Hex4(rest[2..])
      case None => Stop
      case Some(low) => Take(FromU32(PairCode(high, low)), 12)
  }

  function UnicodeTurn(body: string): Turn
    requires |body| >= 2
  {
    match Hex4(body[2..])
    case None => Stop
    case Some(high) =>
      if 0xD800 <= high < 0xDC00 then PairTurn(high, body[6..]) else Take(FromU32(high), 6)
  }

  function NextTurn(body: string): (turn: Turn)
    ensures turn.Take? ==> 1 <= turn.length <= |body|
  {
    if body == "" || body[0] == '\"' then Stop
    else if body[0] != '\\' then Take([body[0]], 1)
    else if |body| < 2 then Stop
    else if ShortMeaning(body[1]).Some? then Take([ShortMeaning(body[1]).value], 2)
    else if body[1] == 'u' then UnicodeTurn(body)
    else Stop
  }

  /** `unescape_partial`. */
  function Unescape(body: string): string
    decreases |body|
  {
    match NextTurn(body)
    case Stop => ""
    case Take(text, length) => text + Unescape(body[length..])
  }

  // ---------------------------------------------------------------- the field

  function Pattern(key: string): string {
    "\"" + key + "\""
  }

  /** What follows a colon, if the next thing is one. */
  function AfterColon(rest: string): Option<string> {
    var r := TrimStart(rest);
    if r != "" && r[0] == ':' then Some(TrimStart(r[1..])) else None
  }

  function ReadValue(value: string): Option<string> {
    if value != "" && value[0] == '\"' then Some(Unescape(value[1..])) else None
  }

  /** `partial_string_field`, with `pattern` the quoted key. */
  function FieldAt(json: string, pattern: string): Option<string>
    requires pattern != ""
    decreases |json|
  {
    if |json| < |pattern| then None
    else if !(pattern <= json) then FieldAt(json[1..], pattern)
    else
      match AfterColon(json[|pattern|..])
      case Some(value) => ReadValue(value)
      case None => FieldAt(json[|pattern|..], pattern)
  }

  function Field(json: string, key: string): Option<string> {
    FieldAt(json, Pattern(key))
  }

  /** `unwrap_or_default`. */
  function Shown(field: Option<string>): string {
    if field.None? then "" else field.value
  }

  // ---------------------------------------------------------------- the loops

  method ReadHex4(body: string, at: nat) returns (value: Option<nat>, next: nat)
    requires at <= |body|
    ensures value == Hex4(body[at..]) && at <= next <= |body|
    ensures value.Some? ==> next == at + 4
  {
    var digits := "";
    next := at;
    while |digits| < 4 && next < |body|
      invariant at <= next <= |body| && |digits| <= 4 && digits == body[at..next]
    {
      digits := digits + [body[next]];
      next := next + 1;
    }
    if |digits| == 4 {
      assert body[at..][..4] == digits;
      value := FromStrRadix(digits, 16, U32_MAX);
    } else {
      value := None;
    }
  }

  /** The arm of a `\u` escape; `next` is the position after the `u`. */
  method ReadUnicode(body: string, at: nat) returns (turn: Turn)
    requires at + 2 <= |body|
    ensures turn == UnicodeTurn(body[at..])
  {
    var high, next := ReadHex4(body, at + 2);
    assert body[at..][2..] == body[at + 2..];
    if high.None? {
      return Stop;
    }
    if !(0xD800 <= high.value < 0xDC00) {
      return Take(FromU32(high.value), 6);
    }
    assert body[at..][6..] == body[next..];
    if |body| < next + 2 || body[next] != '\\' || body[next + 1] != 'u' {
      return Stop;
    }
    var low, _ := ReadHex4(body, next + 2);
    assert body[next..][2..] == body[next + 2..];
    if low.None? {
      return Stop;
    }
    return Take(FromU32(PairCode(high.value, low.value)), 12);
  }

  method ReadEscape(body: string, at: nat) returns (turn: Turn)
    requires at < |body| && body[at] == '\\'
    ensures turn == NextTurn(body[at..])
  {
    if at + 1 == |body| {
      return Stop;
    }
    var short := ShortMeaning(body[at + 1]);
    if short.Some? {
      return Take([short.value], 2);
    }
    if body[at + 1] != 'u' {
      return Stop;
    }
    turn := ReadUnicode(body, at);
  }

  lemma UnescapeStep(out: string, body: string, at: nat)
    requires at <= |body|
    ensures match NextTurn(body[at..])
            case Stop => out + Unescape(body[at..]) == out
            case Take(text, length) => out + Unescape(body[at..]) == out + text + Unescape(body[at + length..])
  {
    var turn := NextTurn(body[at..]);
    if turn.Take? {
      assert body[at..][turn.length..] == body[at + turn.length..];
    }
  }

  method UnescapePartial(body: string) returns (out: string)
    ensures out == Unescape(body)
  {
    out := "";
    var at := 0;
    while at < |body| && body[at] != '\"'
      invariant at <= |body| && Unescape(body) == out + Unescape(body[at..])
      decreases |body| - at
    {
      UnescapeStep(out, body, at);
      var turn := Take([body[at]], 1);
      if body[at] == '\\' {
        turn := ReadEscape(body, at);
      }
      assert turn == NextTurn(body[at..]);
      if turn.Stop? {
        return;
      }
      out := out + turn.text;
      at := at + turn.length;
    }
    UnescapeStep(out, body, at);
  }

  /** `str::find` from a position on. */
  method FindFrom(json: string, pattern: string, from: nat) returns (found: Option<nat>)
    requires from <= |json| && pattern != ""
    ensures found.Some? ==> from <= found.value <= |json| - |pattern| && pattern <= json[found.value..]
    ensures found.Some? ==> FieldAt(json[from..], pattern) == FieldAt(json[found.value..], pattern)
    ensures found.None? ==> FieldAt(json[from..], pattern) == None
  {
    var at := from;
    while at + |pattern| <= |json|
      invariant from <= at <= |json| && FieldAt(json[from..], pattern) == FieldAt(json[at..], pattern)
      decreases |json| - at
    {
      if pattern <= json[at..] {
        return Some(at);
      }
      assert json[at..][1..] == json[at + 1..];
      at := at + 1;
    }
    return None;
  }

  method PartialStringField(json: string, key: string) returns (field: Option<string>)
    ensures field == Field(json, key)
  {
    var pattern := Pattern(key);
    var from := 0;
    var found := FindFrom(json, pattern, from);
    while found.Some?
      invariant from <= |json| && Field(json, key) == FieldAt(json[from..], pattern)
      invariant found.Some? ==> from <= found.value <= |json| - |pattern| && pattern <= json[found.value..]
      invariant found.Some? ==> FieldAt(json[from..], pattern) == FieldAt(json[found.value..], pattern)
      invariant found.None? ==> FieldAt(json[from..], pattern) == None
      decreases |json| - from
    {
      var after := found.value + |pattern|;
      assert json[found.value..][|pattern|..] == json[after..];
      var value := AfterColon(json[after..]);
      if value.Some? {
        if value.value == "" || value.value[0] != '\"' {
          return None;
        }
        var text := UnescapePartial(value.value[1..]);
        return Some(text);
      }
      from := after;
      found := FindFrom(json, pattern, from);
    }
    return None;
  }
}
