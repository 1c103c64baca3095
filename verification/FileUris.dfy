/** Paths as `file://` URIs, percent-encoded (sections 2.1 and 2.3 of RFC 3986), and back
    (crates/agent-core/src/attachments.rs, on Unix). Paths are bytes and URIs are characters below 256. */
module FileUris {
  import opened Common

  const SCHEME := "file://"

  // ---------------------------------------------------------------- encoding

  /** The bytes that are written as they are. */
  predicate IsPlain(b: Byte) {
    var c := b as char;
    'A' <= c <= 'Z' || 'a' <= c <= 'z' || '0' <= c <= '9' || c in {'-', '.', '_', '~', '/', ':'}
  }

  function HexDigit(d: nat): char
    requires d < 16
  {
    "0123456789ABCDEF"[d]
  }

  function Escape(b: Byte): string {
    if IsPlain(b) then [b as char] else ['%', HexDigit(b / 16), HexDigit(b % 16)]
  }

  function EscapeAll(path: seq<Byte>): string {
    if path == [] then "" else Escape(path[0]) + EscapeAll(path[1..])
  }

  method FileUri(path: seq<Byte>) returns (uri: string)
    ensures uri == SCHEME + EscapeAll(path)
  {
    uri := SCHEME;
    var i := 0;
    while i < |path|
      invariant i <= |path| && SCHEME + EscapeAll(path) == uri + EscapeAll(path[i..])
    {
      assert path[i..][1..] == path[i + 1..];
      Associates(uri, Escape(path[i]), EscapeAll(path[i + 1..]));
      if IsPlain(path[i]) {
        uri := uri + [path[i] as char];
      } else {
        uri := uri + ['%', HexDigit(path[i] / 16), HexDigit(path[i] % 16)];
      }
      i := i + 1;
    }
  }

  // ---------------------------------------------------------------- decoding

  predicate IsBytes(uri: string) {
    forall i :: 0 <= i < |uri| ==> uri[i] as int < 256
  }

  /** The bytes of an encoded path; `from_str_radix` reads the two digits. */
  function Unescape(encoded: string): Option<seq<Byte>>
    requires IsBytes(encoded)
  {
    if encoded == "" then Some([])
    else if encoded[0] != '%' then Prepend(encoded[0] as int, Unescape(encoded[1..]))
    else if |encoded| < 3 then None
    else
      match FromStrRadix(encoded[1..3], 16, 255)
      case None => None
      case Some(b) => Prepend(b, Unescape(encoded[3..]))
  }

  function Prepend(b: Byte, rest: Option<seq<Byte>>): Option<seq<Byte>> {
    match rest
    case None => None
    case Some(bytes) => Some([b] + bytes)
  }

  predicate IsContinuation(b: Byte) {
    0x80 <= b < 0xC0
  }

  /** The length of the well-formed character at the front (table 3-7 of the Unicode standard), or 0. */
  function CharLength(b: seq<Byte>): (n: nat)
    ensures n <= |b|
  {
    if b == [] then 0
    else if b[0] < 0x80 then 1
    else if |b| < 2 || !IsContinuation(b[1]) then 0
    else if 0xC2 <= b[0] < 0xE0 then 2
    else if |b| < 3 || !IsContinuation(b[2]) then 0
    else if 0xE0 <= b[0] < 0xF0 then
      if (b[0] == 0xE0 && b[1] < 0xA0) || (b[0] == 0xED && b[1] >= 0xA0) then 0 else 3
    else if |b| < 4 || !IsContinuation(b[3]) then 0
    else if 0xF0 <= b[0] < 0xF5 then
      if (b[0] == 0xF0 && b[1] < 0x90) || (b[0] == 0xF4 && b[1] >= 0x90) then 0 else 4
    else 0
  }

  /** `String::from_utf8` accepts it. */
  predicate IsUtf8(b: seq<Byte>) {
    b == [] || (CharLength(b) > 0 && IsUtf8(b[CharLength(b)..]))
  }

  function UriBytes(uri: string): Option<seq<Byte>>
    requires IsBytes(uri)
  {
    if !(SCHEME <= uri) then None
    else
      var encoded := uri[|SCHEME|..];
      if encoded == "" || encoded[0] != '/' then None
      else
        var bytes := Unescape(encoded);
        if bytes.Some? && IsUtf8(bytes.value) then bytes else None
  }

  function Behind(done: seq<Byte>, rest: Option<seq<Byte>>): Option<seq<Byte>> {
    match rest
    case None => None
    case Some(bytes) => Some(done + bytes)
  }

  lemma BehindMore(done: seq<Byte>, b: Byte, rest: Option<seq<Byte>>)
    ensures Behind(done, Prepend(b, rest)) == Behind(done + [b], rest)
  {
    if rest.Some? {
      assert done + ([b] + rest.value) == done + [b] + rest.value;
    }
  }

  method UriPath(uri: string) returns (path: Option<seq<Byte>>)
    requires IsBytes(uri)
    ensures path == UriBytes(uri)
  {
    if |uri| < |SCHEME| || uri[..|SCHEME|] != SCHEME {
      return None;
    }
    var encoded := uri[|SCHEME|..];
    if encoded == "" || encoded[0] != '/' {
      return None;
    }
    var out: seq<Byte>, i := [], 0;
    assert encoded[0..] == encoded;
    assert Behind([], Unescape(encoded)) == Unescape(encoded) by {
      if Unescape(encoded).Some? {
        assert [] + Unescape(encoded).value == Unescape(encoded).value;
      }
    }
    while i < |encoded|
      invariant i <= |encoded| && Unescape(encoded) == Behind(out, Unescape(encoded[i..]))
      decreases |encoded| - i
    {
      if encoded[i] == '%' {
        if i + 3 > |encoded| {
          return None;
        }
        assert encoded[i..][1..3] == encoded[i + 1..i + 3] && encoded[i..][3..] == encoded[i + 3..];
        var b := FromStrRadix(encoded[i + 1..i + 3], 16, 255);
        if b.None? {
          return None;
        }
        BehindMore(out, b.value, Unescape(encoded[i + 3..]));
        out := out + [b.value];
        i := i + 3;
      } else {
        assert encoded[i..][1..] == encoded[i + 1..];
        BehindMore(out, encoded[i] as int, Unescape(encoded[i + 1..]));
        out := out + [encoded[i] as int];
        i := i + 1;
      }
    }
    assert out + [] == out;
    return if IsUtf8(out) then Some(out) else None;
  }

  // ---------------------------------------------------------------- the round trip

  lemma HexReadsBack(b: Byte)
    ensures FromStrRadix([HexDigit(b / 16), HexDigit(b % 16)], 16, 255) == Some(b)
  {
    var s := [HexDigit(b / 16), HexDigit(b % 16)];
    HexDigitReadsBack(b / 16);
    HexDigitReadsBack(b % 16);
    assert s[..1] == [HexDigit(b / 16)] && s[..1][..0] == "";
    assert DigitsValue(s[..1], 16) == Some(b / 16);
  }

  lemma HexDigitReadsBack(d: nat)
    requires d < 16
    ensures DigitValue(HexDigit(d), 16) == Some(d) && HexDigit(d) != '+' && HexDigit(d) as int < 128
  {
    if d < 10 {
      assert HexDigit(d) as int == '0' as int + d;
    } else {
      assert HexDigit(d) as int == 'A' as int + (d - 10);
    }
  }

  lemma {:induction false} EscapeAllIsBytes(path: seq<Byte>)
    ensures IsBytes(EscapeAll(path))
  {
    if path != [] {
      EscapeAllIsBytes(path[1..]);
      HexDigitReadsBack(path[0] / 16);
      HexDigitReadsBack(path[0] % 16);
    }
  }

  lemma {:induction false} UnescapesBack(path: seq<Byte>)
    ensures IsBytes(EscapeAll(path)) && Unescape(EscapeAll(path)) == Some(path)
  {
    EscapeAllIsBytes(path);
    if path != [] {
      var b, rest := path[0], EscapeAll(path[1..]);
      UnescapesBack(path[1..]);
      var whole := Escape(b) + rest;
      if IsPlain(b) {
        assert whole[1..] == rest;
      } else {
        assert whole[1..3] == [HexDigit(b / 16), HexDigit(b % 16)] && whole[3..] == rest;
        HexReadsBack(b);
      }
      assert [b] + path[1..] == path;
    }
  }

  /** A byte string comes back from its URI exactly when it is an absolute path in UTF-8. */
  lemma PathComesBackExactly(path: seq<Byte>)
    ensures IsBytes(SCHEME + EscapeAll(path))
    ensures UriBytes(SCHEME + EscapeAll(path)) == Some(path) <==> path != [] && path[0] == '/' as int && IsUtf8(path)
  {
    EscapeAllIsBytes(path);
    UnescapesBack(path);
    var uri := SCHEME + EscapeAll(path);
    assert uri[|SCHEME|..] == EscapeAll(path);
    if path != [] {
      assert EscapeAll(path)[0] == Escape(path[0])[0];
    }
  }

  /** What a URI holds: unreserved characters, slashes, colons and escapes. */
  predicate IsUriChar(c: char) {
    'A' <= c <= 'Z' || 'a' <= c <= 'z' || '0' <= c <= '9' || c in {'-', '.', '_', '~', '/', ':', '%'}
  }

  lemma {:induction false} UriIsPlain(path: seq<Byte>, i: nat)
    requires i < |EscapeAll(path)|
    ensures IsUriChar(EscapeAll(path)[i])
  {
    var first := Escape(path[0]);
    if i >= |first| {
      UriIsPlain(path[1..], i - |first|);
    } else if i > 0 {
      HexDigitIsUriChar(path[0] / 16);
      HexDigitIsUriChar(path[0] % 16);
    }
  }

  lemma HexDigitIsUriChar(d: nat)
    requires d < 16
    ensures IsUriChar(HexDigit(d))
  {
    if d < 10 {
      assert HexDigit(d) as int == '0' as int + d;
    } else {
      assert HexDigit(d) as int == 'A' as int + (d - 10);
    }
  }

  // ---------------------------------------------------------------- which URIs are read

  predicate IsHex(c: char) {
    '0' <= c <= '9' || 'a' <= c <= 'f' || 'A' <= c <= 'F'
  }

  function HexValue(c: char): nat
    requires IsHex(c)
  {
    if c <= '9' then c as int - '0' as int else if c <= 'F' then c as int - 'A' as int + 10 else c as int - 'a' as int + 10
  }

  /** A character that stands for itself, or an escape. */
  datatype Piece = Plain(c: char) | Coded(x: char, y: char)

  /** An escape is two hexadecimal digits; a plus sign passes for the first. */
  predicate IsPiece(p: Piece) {
    match p
    case Plain(c) => c != '%' && c as int < 256
    case Coded(x, y) => (IsHex(x) || x == '+') && IsHex(y)
  }

  function ByteOf(p: Piece): Byte
    requires IsPiece(p)
  {
    match p
    case Plain(c) => c as int
    case Coded(x, y) => (if x == '+' then 0 else HexValue(x)) * 16 + HexValue(y)
  }

  predicate ArePieces(ps: seq<Piece>) {
    forall i :: 0 <= i < |ps| ==> IsPiece(ps[i])
  }

  function BytesOf(ps: seq<Piece>): (bytes: seq<Byte>)
    requires ArePieces(ps)
    ensures |bytes| == |ps|
  {
    seq(|ps|, i requires 0 <= i < |ps| => ByteOf(ps[i]))
  }

  function TextOf(ps: seq<Piece>): string {
    if ps == [] then "" else (if ps[0].Plain? then [ps[0].c] else ['%', ps[0].x, ps[0].y]) + TextOf(ps[1..])
  }

  lemma TwoDigits(x: char, y: char)
    ensures FromStrRadix([x, y], 16, 255) ==
            if IsPiece(Coded(x, y)) then Some(ByteOf(Coded(x, y)) as nat) else None
  {
    var s := [x, y];
    assert s[..1] == [x] && s[..1][..0] == "" && s[1..] == [y] && [y][..0] == "";
    assert DigitsValue(s[..1], 16) == DigitValue(x, 16);
    assert DigitsValue([y], 16) == DigitValue(y, 16);
  }

  lemma {:induction false} ReadsPieces(ps: seq<Piece>)
    requires ArePieces(ps)
    ensures IsBytes(TextOf(ps)) && Unescape(TextOf(ps)) == Some(BytesOf(ps))
  {
    if ps != [] {
      var rest, text := TextOf(ps[1..]), TextOf(ps);
      ReadsPieces(ps[1..]);
      assert BytesOf(ps) == [ByteOf(ps[0])] + BytesOf(ps[1..]);
      if ps[0].Plain? {
        assert text[1..] == rest;
      } else {
        TwoDigits(ps[0].x, ps[0].y);
        assert text[1..3] == [ps[0].x, ps[0].y] && text[3..] == rest;
      }
    }
  }

  lemma {:induction false} MadeOfPieces(encoded: string) returns (ps: seq<Piece>)
    requires IsBytes(encoded) && Unescape(encoded).Some?
    ensures ArePieces(ps) && TextOf(ps) == encoded
  {
    if encoded == "" {
      ps := [];
    } else if encoded[0] != '%' {
      var rest := MadeOfPieces(encoded[1..]);
      ps := [Plain(encoded[0])] + rest;
      assert ps[1..] == rest && encoded == [encoded[0]] + encoded[1..];
    } else {
      assert encoded[1..3] == [encoded[1], encoded[2]];
      TwoDigits(encoded[1], encoded[2]);
      var rest := MadeOfPieces(encoded[3..]);
      ps := [Coded(encoded[1], encoded[2])] + rest;
      assert ps[1..] == rest && encoded == ['%', encoded[1], encoded[2]] + encoded[3..];
    }
  }

  ghost predicate Writes(ps: seq<Piece>, encoded: string) {
    ArePieces(ps) && TextOf(ps) == encoded
  }

  /** The path of a URI is read exactly if it is written in such pieces, and then it is what they stand for,
      whatever else could have been escaped and in whichever case. */
  lemma UnescapesExactly(encoded: string)
    requires IsBytes(encoded)
    ensures Unescape(encoded).Some? <==> exists ps :: Writes(ps, encoded)
    ensures forall ps :: Writes(ps, encoded) ==> Unescape(encoded) == Some(BytesOf(ps))
  {
    if Unescape(encoded).Some? {
      var ps := MadeOfPieces(encoded);
      assert Writes(ps, encoded);
    }
    forall ps | Writes(ps, encoded) ensures Unescape(encoded) == Some(BytesOf(ps)) {
      ReadsPieces(ps);
    }
  }

  /** Section 2.3 of RFC 3986, and the separators of a path and a drive. */
  predicate IsUnreserved(c: char) {
    'A' <= c <= 'Z' || 'a' <= c <= 'z' || '0' <= c <= '9' || c == '-' || c == '.' || c == '_' || c == '~' || c == '/' || c == ':'
  }

  /** The pieces a path is written in: unreserved bytes as they are, every other byte as two digits in upper
      case. */
  predicate WritesByte(p: Piece, b: Byte) {
    && IsPiece(p) && ByteOf(p) == b
    && (p.Plain? <==> IsUnreserved(b as char))
    && (p.Coded? ==> p.x != '+' && !('a' <= p.x <= 'f') && !('a' <= p.y <= 'f'))
  }

  lemma PieceOf(b: Byte) returns (p: Piece)
    ensures WritesByte(p, b) && Escape(b) == if p.Plain? then [p.c] else ['%', p.x, p.y]
  {
    HexDigitReadsBack(b / 16);
    HexDigitReadsBack(b % 16);
    p := if IsPlain(b) then Plain(b as char) else Coded(HexDigit(b / 16), HexDigit(b % 16));
  }

  lemma {:induction false} EscapesExactly(path: seq<Byte>) returns (ps: seq<Piece>)
    ensures Writes(ps, EscapeAll(path)) && |ps| == |path|
    ensures forall i :: 0 <= i < |ps| ==> WritesByte(ps[i], path[i])
  {
    ps := [];
    if path != [] {
      var first := PieceOf(path[0]);
      var rest := EscapesExactly(path[1..]);
      ps := [first] + rest;
      assert ps[1..] == rest;
    }
  }
}
