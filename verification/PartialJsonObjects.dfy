/** A flat JSON object of string fields, however spaced and escaped, read whole or cut anywhere. The search
    compares key texts, not keys: exactly when that finds the right field is proved here. */
module PartialJsonObjects {
  import opened Common
  import opened PartialJson
  import opened PartialJsonTheorems

  // ---------------------------------------------------------------- objects

  predicate IsSpacing(s: string) {
    forall i :: 0 <= i < |s| ==> s[i] in {' ', '\t', '\n', '\r'}
  }

  /** A key that can be searched for: it can be written as it is, and cannot begin where a string ended. */
  predicate FieldKey(key: string) {
    IsPlain(key) && key != "" && key[0] !in {' ', '\t', '\n', '\r', ':', ',', '}'}
  }

  predicate IsPlain(key: string) {
    forall i :: 0 <= i < |key| ==> Legal(Raw(key[i]))
  }

  /** `key` and `value` as they are written. */
  datatype Member = Member(before: string, key: seq<Unit>, afterKey: string, beforeValue: string,
                           value: seq<Unit>, after: string)

  /** `blank` is between the braces of an object without members. */
  datatype Object = Object(lead: string, members: seq<Member>, blank: string, trail: string)

  predicate WellFormed(m: Member) {
    && IsSpacing(m.before) && IsSpacing(m.afterKey) && IsSpacing(m.beforeValue) && IsSpacing(m.after)
    && AllLegal(m.key) && AllLegal(m.value)
  }

  predicate AreWellFormed(ms: seq<Member>) {
    forall i :: 0 <= i < |ms| ==> WellFormed(ms[i])
  }

  predicate WellFormedObject(o: Object) {
    IsSpacing(o.lead) && AreWellFormed(o.members) && IsSpacing(o.blank) && IsSpacing(o.trail)
  }

  /** Up to the quote that opens the value. */
  function Head(m: Member): string {
    m.before + ("\"" + (Encode(m.key) + ("\"" + (Gap(m) + "\""))))
  }

  /** Between the key and the value. */
  function Gap(m: Member): string {
    m.afterKey + ":" + m.beforeValue
  }

  /** From the value's closing quote to the comma or the brace. */
  function Tail(m: Member): string {
    "\"" + m.after
  }

  /** The members and what follows them. */
  function Joined(ms: seq<Member>, trail: string): string
    requires ms != []
    decreases |ms|, 1
  {
    Head(ms[0]) + (Encode(ms[0].value) + Behind(ms, 0, trail))
  }

  /** From the quote that closes value `i` on. */
  function Behind(ms: seq<Member>, i: nat, trail: string): string
    requires i < |ms|
    decreases |ms| - i, 0
  {
    Tail(ms[i]) + if i == |ms| - 1 then "}" + trail else "," + Joined(ms[i + 1..], trail)
  }

  function ObjectText(o: Object): string {
    o.lead + ("{" + if o.members == [] then o.blank + ("}" + o.trail) else Joined(o.members, o.trail))
  }

  /** The object up to the quote that opens value `i`, and the rest. */
  function JoinedUpTo(ms: seq<Member>, i: nat): string
    requires i < |ms|
  {
    if i == 0 then Head(ms[0])
    else Head(ms[0]) + (Encode(ms[0].value) + (Tail(ms[0]) + ("," + JoinedUpTo(ms[1..], i - 1))))
  }

  function UpTo(o: Object, i: nat): string
    requires i < |o.members|
  {
    o.lead + ("{" + JoinedUpTo(o.members, i))
  }

  function From(o: Object, i: nat): string
    requires i < |o.members|
  {
    Encode(o.members[i].value) + Behind(o.members, i, o.trail)
  }

  lemma {:induction false} JoinedSplits(ms: seq<Member>, i: nat, trail: string)
    requires i < |ms|
    ensures Joined(ms, trail) == JoinedUpTo(ms, i) + (Encode(ms[i].value) + Behind(ms, i, trail))
  {
    if i > 0 {
      var m, rest := ms[0], ms[1..];
      JoinedSplits(rest, i - 1, trail);
      BehindShift(ms, i, trail);
      PutsLast(Head(m), Encode(m.value), Tail(m), ",", JoinedUpTo(rest, i - 1), Encode(ms[i].value) + Behind(ms, i, trail));
    }
  }

  lemma BehindShift(ms: seq<Member>, i: nat, trail: string)
    requires 0 < i < |ms|
    ensures Behind(ms[1..], i - 1, trail) == Behind(ms, i, trail) && ms[1..][i - 1] == ms[i]
  {
    if i < |ms| - 1 {
      assert ms[1..][i..] == ms[i + 1..];
    }
  }

  // ---------------------------------------------------------------- text the search passes over

  predicate QuoteFree(s: string) {
    forall i :: 0 <= i < |s| ==> s[i] != '\"'
  }

  lemma {:induction false} PassQuoteFree(s: string, rest: string, pattern: string)
    requires QuoteFree(s) && pattern != "" && pattern[0] == '\"'
    ensures FieldAt(s + rest, pattern) == FieldAt(rest, pattern)
  {
    if s == "" {
      assert s + rest == rest;
    } else {
      assert (s + rest)[1..] == s[1..] + rest;
      PassQuoteFree(s[1..], rest, pattern);
    }
  }

  lemma PassQuote(rest: string, pattern: string)
    requires pattern != "" && !(pattern <= "\"" + rest)
    ensures FieldAt("\"" + rest, pattern) == FieldAt(rest, pattern)
  {
    assert ("\"" + rest)[1..] == rest;
  }

  /** What a match of the pattern leads to. */
  function AfterMatch(rest: string, pattern: string): Option<string>
    requires pattern != ""
  {
    match AfterColon(rest)
    case Some(value) => ReadValue(value)
    case None => FieldAt(rest, pattern)
  }

  lemma TakeMatch(pattern: string, rest: string)
    requires pattern != ""
    ensures FieldAt(pattern + rest, pattern) == AfterMatch(rest, pattern)
  {
    assert (pattern + rest)[|pattern|..] == rest;
  }

  /** In the text of a string a quote follows a backslash. */
  predicate QuotesEscaped(text: string) {
    forall i :: 0 <= i < |text| && text[i] == '\"' ==> i > 0 && text[i - 1] == '\\'
  }

  lemma UnitQuotes(u: Unit, i: nat)
    requires Legal(u) && i < |UnitText(u)|
    ensures UnitText(u)[i] == '\"' ==> u == Short('\"') && i == 1
  {
    match u
    case Raw(_) =>
    case Short(_) =>
    case Code(digits) =>
      if i >= 2 {
        assert UnitText(u)[i] == digits[i - 2];
      }
    case Pair(high, low) =>
      if 2 <= i < 6 {
        assert UnitText(u)[i] == high[i - 2];
      } else if i >= 8 {
        assert UnitText(u)[i] == low[i - 8];
      }
  }

  lemma {:induction false} ValueQuotesEscaped(units: seq<Unit>)
    requires AllLegal(units)
    ensures QuotesEscaped(Encode(units))
  {
    if units != [] {
      var text, more := UnitText(units[0]), Encode(units[1..]);
      ValueQuotesEscaped(units[1..]);
      forall i | 0 <= i < |text + more| && (text + more)[i] == '\"'
        ensures i > 0 && (text + more)[i - 1] == '\\'
      {
        if i < |text| {
          UnitQuotes(units[0], i);
        } else {
          assert more[i - |text|] == '\"';
        }
      }
    }
  }

  /** A quoted key that begins where a string's text begins ends where it ends. */
  lemma MatchesWholeOnly(text: string, rest: string, key: string)
    requires QuotesEscaped(text) && IsPlain(key) && text != key
    ensures !(Pattern(key) <= "\"" + (text + ("\"" + rest)))
  {
    var n, whole := |key|, "\"" + (text + ("\"" + rest));
    assert forall i :: 0 <= i < n ==> Legal(Raw(key[i]));
    if n < |text| && text[n] == '\"' {
      assert whole[n] == text[n - 1] && Pattern(key)[n] == key[n - 1];
    } else if n < |text| {
      assert whole[n + 1] == text[n] && Pattern(key)[n + 1] == '\"';
    } else if |text| < n {
      assert whole[|text| + 1] == '\"' && Pattern(key)[|text| + 1] == key[|text|];
    } else {
      var i :| 0 <= i < n && text[i] != key[i];
      assert whole[i + 1] == text[i] && Pattern(key)[i + 1] == key[i];
    }
  }

  // ---------------------------------------------------------------- where a string is taken for the key

  /** The text ends with an escaped quote and the key. */
  predicate EndsQuoted(text: string, key: string) {
    |key| + 2 <= |text| && text[|text| - |key| - 2..] == "\\\"" + key
  }

  /** The search takes the string for the key it looks for: it is written like it, or ends like it behind
      a quote. */
  predicate Opens(text: string, key: string) {
    text == key || EndsQuoted(text, key)
  }

  lemma EndsQuotedBehindQuote(text: string, key: string)
    ensures EndsQuoted("\\\"" + text, key) <==> Opens(text, key)
  {
    var whole, n := "\\\"" + text, |key|;
    if n <= |text| {
      var tail := whole[|whole| - n - 2..];
      assert tail[2..] == text[|text| - n..];
      if |text| == n {
        assert tail == "\\\"" + text && text[0..] == text;
      } else if |text| == n + 1 {
        assert tail[0] == '\"' && ("\\\"" + key)[0] == '\\';
      } else {
        assert tail == text[|text| - n - 2..];
      }
    }
  }

  lemma EndsQuotedBehindRest(first: string, text: string, key: string)
    requires QuoteFree(first) && (text == "" || text[0] != '\"')
    ensures EndsQuoted(first + text, key) <==> EndsQuoted(text, key)
  {
    var whole, n := first + text, |key|;
    if n + 2 <= |text| {
      assert whole[|whole| - n - 2..] == text[|text| - n - 2..];
    } else if n + 2 <= |whole| {
      var tail := whole[|whole| - n - 2..];
      assert tail[1] == whole[|whole| - n - 1] && ("\\\"" + key)[1] == '\"';
      assert |whole| - n - 1 <= |first|;
    }
  }

  lemma {:induction false} EncodeStartsPlain(units: seq<Unit>)
    requires AllLegal(units) && units != []
    ensures Encode(units)[0] != '\"'
  {
    UnitQuotes(units[0], 0);
  }

  /** The closing quote begins no match. */
  lemma PassClosing(rest: string, key: string)
    requires key != "" && (rest == "" || rest[0] != key[0])
    ensures FieldAt("\"" + rest, Pattern(key)) == FieldAt(rest, Pattern(key))
  {
    assert Pattern(key)[1] == key[0] && (rest != "" ==> ("\"" + rest)[1] == rest[0]);
    PassQuote(rest, Pattern(key));
  }

  /** A quote and the text behind it: a match if the text opens the key, and otherwise nothing. */
  lemma {:induction false} PassQuoted(units: seq<Unit>, rest: string, key: string)
    requires AllLegal(units) && FieldKey(key) && (rest == "" || rest[0] != key[0])
    ensures FieldAt("\"" + (Encode(units) + ("\"" + rest)), Pattern(key)) ==
            if Opens(Encode(units), key) then AfterMatch(rest, Pattern(key)) else FieldAt(rest, Pattern(key))
    decreases |units|, 1
  {
    if Encode(units) == key {
      assert "\"" + (key + ("\"" + rest)) == Pattern(key) + rest;
      TakeMatch(Pattern(key), rest);
    } else {
      ValueQuotesEscaped(units);
      MatchesWholeOnly(Encode(units), rest, key);
      PassQuote(Encode(units) + ("\"" + rest), Pattern(key));
      PassBody(units, rest, key);
    }
  }

  lemma {:induction false} PassBody(units: seq<Unit>, rest: string, key: string)
    requires AllLegal(units) && FieldKey(key) && (rest == "" || rest[0] != key[0])
    ensures FieldAt(Encode(units) + ("\"" + rest), Pattern(key)) ==
            if EndsQuoted(Encode(units), key) then AfterMatch(rest, Pattern(key)) else FieldAt(rest, Pattern(key))
    decreases |units|, 0
  {
    if units == [] {
      assert Encode(units) + ("\"" + rest) == "\"" + rest;
      PassClosing(rest, key);
    } else {
      EndsQuotedBehindUnit(units, key);
      PassUnit(units, rest, key);
      if units[0] == Short('\"') {
        PassQuoted(units[1..], rest, key);
      } else {
        PassBody(units[1..], rest, key);
      }
    }
  }

  lemma PassUnit(units: seq<Unit>, rest: string, key: string)
    requires AllLegal(units) && units != []
    ensures var more := Encode(units[1..]) + ("\"" + rest);
            FieldAt(Encode(units) + ("\"" + rest), Pattern(key)) ==
            FieldAt(if units[0] == Short('\"') then "\"" + more else more, Pattern(key))
  {
    var more := Encode(units[1..]) + ("\"" + rest);
    Associates(UnitText(units[0]), Encode(units[1..]), "\"" + rest);
    PassUnitText(units[0], more, key);
  }

  lemma PassUnitText(u: Unit, more: string, key: string)
    requires Legal(u)
    ensures FieldAt(UnitText(u) + more, Pattern(key)) == FieldAt(if u == Short('\"') then "\"" + more else more, Pattern(key))
  {
    if u == Short('\"') {
      assert UnitText(u) == "\\\"";
      PassEscape(more, key);
    } else {
      UnitWithoutQuote(u);
      PassQuoteFree(UnitText(u), more, Pattern(key));
    }
  }

  lemma PassEscape(more: string, key: string)
    ensures FieldAt("\\\"" + more, Pattern(key)) == FieldAt("\"" + more, Pattern(key))
  {
    assert "\\\"" + more == "\\" + ("\"" + more);
    PassQuoteFree("\\", "\"" + more, Pattern(key));
  }

  lemma EndsQuotedBehindUnit(units: seq<Unit>, key: string)
    requires AllLegal(units) && units != []
    ensures EndsQuoted(Encode(units), key) <==>
            if units[0] == Short('\"') then Opens(Encode(units[1..]), key) else EndsQuoted(Encode(units[1..]), key)
  {
    var rest := Encode(units[1..]);
    if units[0] == Short('\"') {
      assert UnitText(units[0]) == "\\\"";
      EndsQuotedBehindQuote(rest, key);
    } else {
      UnitWithoutQuote(units[0]);
      if units[1..] != [] {
        EncodeStartsPlain(units[1..]);
      }
      EndsQuotedBehindRest(UnitText(units[0]), rest, key);
    }
  }

  lemma UnitWithoutQuote(u: Unit)
    requires Legal(u) && u != Short('\"')
    ensures QuoteFree(UnitText(u))
  {
    forall i | 0 <= i < |UnitText(u)| ensures UnitText(u)[i] != '\"' {
      UnitQuotes(u, i);
    }
  }

  // ---------------------------------------------------------------- one member

  lemma HeadBefore(m: Member, x: string)
    ensures Head(m) + x == m.before + ("\"" + (Encode(m.key) + ("\"" + (Gap(m) + ("\"" + x)))))
  {
    PutsLast(m.before, "\"", Encode(m.key), "\"", Gap(m) + "\"", x);
    Associates(Gap(m), "\"", x);
  }

  lemma {:induction false} TrimSpacing(s: string, rest: string)
    requires IsSpacing(s)
    ensures TrimStart(s + rest) == TrimStart(rest)
  {
    if s == "" {
      assert s + rest == rest;
    } else {
      assert (s + rest)[1..] == s[1..] + rest;
      TrimSpacing(s[1..], rest);
    }
  }

  lemma GapShape(m: Member, key: string)
    requires WellFormed(m) && FieldKey(key)
    ensures QuoteFree(Gap(m)) && Gap(m) != "" && Gap(m)[0] != key[0]
  {
  }

  /** Behind a key a colon follows, and then the value. */
  lemma GapIsColon(m: Member, x: string)
    requires WellFormed(m)
    ensures AfterColon(Gap(m) + ("\"" + x)) == Some("\"" + x)
  {
    var value := m.beforeValue + ("\"" + x);
    assert Gap(m) + ("\"" + x) == m.afterKey + (":" + value);
    TrimSpacing(m.afterKey, ":" + value);
    assert (":" + value)[1..] == value;
    TrimSpacing(m.beforeValue, "\"" + x);
  }

  /** Behind a value no colon follows. */
  lemma CommaEndsValue(spacing: string, mark: string, rest: string, key: string)
    requires IsSpacing(spacing) && mark in {",", "}"} && FieldKey(key)
    ensures AfterColon(spacing + (mark + rest)).None? && (spacing + (mark + rest))[0] != key[0]
  {
    TrimSpacing(spacing, mark + rest);
  }

  /** The key of a member is taken for the key looked for exactly when its text opens it. */
  lemma PassHead(m: Member, x: string, key: string)
    requires WellFormed(m) && FieldKey(key)
    ensures FieldAt(Head(m) + x, Pattern(key)) ==
            if Opens(Encode(m.key), key) then Some(Unescape(x)) else FieldAt("\"" + x, Pattern(key))
  {
    var pattern, rest := Pattern(key), Gap(m) + ("\"" + x);
    HeadBefore(m, x);
    GapShape(m, key);
    PassQuoteFree(m.before, "\"" + (Encode(m.key) + ("\"" + rest)), pattern);
    PassQuoted(m.key, rest, key);
    GapIsColon(m, x);
    assert ("\"" + x)[1..] == x;
    PassQuoteFree(Gap(m), "\"" + x, pattern);
  }

  /** No value is taken for the key. */
  lemma PassValue(m: Member, mark: string, rest: string, key: string)
    requires WellFormed(m) && FieldKey(key) && mark in {",", "}"}
    ensures FieldAt("\"" + (Encode(m.value) + (Tail(m) + (mark + rest))), Pattern(key)) == FieldAt(rest, Pattern(key))
  {
    var pattern := Pattern(key);
    Associates("\"", m.after, mark + rest);
    CommaEndsValue(m.after, mark, rest, key);
    PassQuoted(m.value, m.after + (mark + rest), key);
    PassQuoteFree(m.after, mark + rest, pattern);
    PassQuoteFree(mark, rest, pattern);
  }

  /** A member whose key is not taken for the key is passed over. */
  lemma PassMember(m: Member, mark: string, rest: string, key: string)
    requires WellFormed(m) && FieldKey(key) && !Opens(Encode(m.key), key) && mark in {",", "}"}
    ensures FieldAt(Head(m) + (Encode(m.value) + (Tail(m) + (mark + rest))), Pattern(key)) == FieldAt(rest, Pattern(key))
  {
    PassHead(m, Encode(m.value) + (Tail(m) + (mark + rest)), key);
    PassValue(m, mark, rest, key);
  }

  // ---------------------------------------------------------------- the whole object

  /** The first member whose key is taken for the key. */
  predicate IsFirstOpener(ms: seq<Member>, i: nat, key: string) {
    i < |ms| && Opens(Encode(ms[i].key), key) && forall j :: 0 <= j < i ==> !Opens(Encode(ms[j].key), key)
  }

  lemma {:induction false} ReadsJoined(ms: seq<Member>, i: nat, x: string, key: string)
    requires AreWellFormed(ms) && FieldKey(key) && IsFirstOpener(ms, i, key)
    ensures FieldAt(JoinedUpTo(ms, i) + x, Pattern(key)) == Some(Unescape(x))
  {
    if i == 0 {
      PassHead(ms[0], x, key);
    } else {
      assert forall j :: 0 <= j < i - 1 ==> ms[1..][j] == ms[j + 1];
      ReadsJoined(ms[1..], i - 1, x, key);
      FoundBehindFirst(ms, i, x, key);
    }
  }

  lemma FoundBehindFirst(ms: seq<Member>, i: nat, x: string, key: string)
    requires 0 < i < |ms| && WellFormed(ms[0]) && FieldKey(key) && !Opens(Encode(ms[0].key), key)
    ensures FieldAt(JoinedUpTo(ms, i) + x, Pattern(key)) == FieldAt(JoinedUpTo(ms[1..], i - 1) + x, Pattern(key))
  {
    PutsLast(Head(ms[0]), Encode(ms[0].value), Tail(ms[0]), ",", JoinedUpTo(ms[1..], i - 1), x);
    PassMember(ms[0], ",", JoinedUpTo(ms[1..], i - 1) + x, key);
  }

  lemma PutsLast(a: string, b: string, c: string, d: string, e: string, x: string)
    ensures a + (b + (c + (d + e))) + x == a + (b + (c + (d + (e + x))))
  {
    Associates(a, b + (c + (d + e)), x);
    Associates(b, c + (d + e), x);
    Associates(c, d + e, x);
    Associates(d, e, x);
  }

  lemma PassOpening(lead: string, rest: string, key: string)
    requires IsSpacing(lead)
    ensures FieldAt(lead + ("{" + rest), Pattern(key)) == FieldAt(rest, Pattern(key))
  {
    PassQuoteFree(lead, "{" + rest, Pattern(key));
    PassQuoteFree("{", rest, Pattern(key));
  }

  lemma ReadsAfter(o: Object, i: nat, x: string, key: string)
    requires WellFormedObject(o) && FieldKey(key) && IsFirstOpener(o.members, i, key)
    ensures Field(UpTo(o, i) + x, key) == Some(Unescape(x))
  {
    Associates(o.lead, "{" + JoinedUpTo(o.members, i), x);
    Associates("{", JoinedUpTo(o.members, i), x);
    PassOpening(o.lead, JoinedUpTo(o.members, i) + x, key);
    ReadsJoined(o.members, i, x, key);
  }

  lemma ObjectSplits(o: Object, i: nat)
    requires i < |o.members|
    ensures ObjectText(o) == UpTo(o, i) + From(o, i)
  {
    JoinedSplits(o.members, i, o.trail);
    Associates("{", JoinedUpTo(o.members, i), From(o, i));
    Associates(o.lead, "{" + JoinedUpTo(o.members, i), From(o, i));
  }

  lemma ReadsClosed(units: seq<Unit>, rest: string)
    requires AllLegal(units) && rest != "" && rest[0] == '\"'
    ensures Unescape(Encode(units) + rest) == Meaning(units)
  {
    ReadUnits(units, rest);
    assert Unescape(rest) == "";
  }

  /** The value read is the one behind the first key that is taken for the key. */
  lemma FirstOpenerIsRead(o: Object, i: nat, key: string)
    requires WellFormedObject(o) && FieldKey(key) && IsFirstOpener(o.members, i, key)
    ensures Field(ObjectText(o), key) == Some(Meaning(o.members[i].value))
  {
    ObjectSplits(o, i);
    ReadsAfter(o, i, From(o, i), key);
    ReadsClosed(o.members[i].value, Behind(o.members, i, o.trail));
  }

  /** How much of a value is in after `k` characters of the object. */
  function Arrived(o: Object, i: nat, k: nat): string
    requires WellFormedObject(o) && i < |o.members|
  {
    var start, value := |UpTo(o, i)|, o.members[i].value;
    if k <= start then "" else Meaning(value[..Whole(value, k - start)])
  }

  /** Of an object cut after `k` characters, exactly the characters of that value whose encoding is in. */
  lemma CutFirstOpenerIsRead(o: Object, i: nat, k: nat, key: string)
    requires WellFormedObject(o) && FieldKey(key) && IsFirstOpener(o.members, i, key) && k <= |ObjectText(o)|
    ensures Shown(Field(ObjectText(o)[..k], key)) == Arrived(o, i, k)
  {
    ObjectSplits(o, i);
    var head, value := UpTo(o, i), From(o, i);
    if k <= |head| {
      assert (head + value)[..k] == head[..k];
      CutBeforeValue(o, i, k, key);
    } else {
      assert (head + value)[..k] == head + value[..k - |head|];
      ReadsAfter(o, i, value[..k - |head|], key);
      ValueCut(o.members[i].value, Behind(o.members, i, o.trail), k - |head|);
    }
  }

  lemma CutBeforeValue(o: Object, i: nat, k: nat, key: string)
    requires WellFormedObject(o) && FieldKey(key) && IsFirstOpener(o.members, i, key) && k <= |UpTo(o, i)|
    ensures Shown(Field(UpTo(o, i)[..k], key)) == ""
  {
    var head := UpTo(o, i);
    assert head[..k] + head[k..] == head && head + "" == head;
    ReadsAfter(o, i, "", key);
    FieldGrows(head[..k], head[k..], Pattern(key));
  }

  lemma ValueCut(units: seq<Unit>, rest: string, k: nat)
    requires AllLegal(units) && rest != "" && rest[0] == '\"' && k <= |Encode(units) + rest|
    ensures Unescape((Encode(units) + rest)[..k]) == Meaning(units[..Whole(units, k)])
  {
    var n := |Encode(units)|;
    if k <= n {
      assert (Encode(units) + rest)[..k] == Encode(units)[..k];
      CutReadsWhole(units, k);
    } else {
      assert (Encode(units) + rest)[..k] == Encode(units) + rest[..k - n];
      ReadsClosed(units, rest[..k - n]);
      AllArrived(units, k);
    }
  }

  lemma AllArrived(units: seq<Unit>, k: nat)
    requires AllLegal(units) && |Encode(units)| <= k
    ensures units[..Whole(units, k)] == units
  {
    assert units[..|units|] == units;
    WholeIsExact(units, k, |units|);
  }

  predicate NoneOpens(ms: seq<Member>, key: string) {
    forall j :: 0 <= j < |ms| ==> !Opens(Encode(ms[j].key), key)
  }

  lemma {:induction false} NothingInJoined(ms: seq<Member>, trail: string, key: string)
    requires ms != [] && AreWellFormed(ms) && IsSpacing(trail) && FieldKey(key) && NoneOpens(ms, key)
    ensures FieldAt(Joined(ms, trail), Pattern(key)) == None
  {
    if |ms| == 1 {
      PassMember(ms[0], "}", trail, key);
      NothingInSpacing(trail, key);
    } else {
      PassMember(ms[0], ",", Joined(ms[1..], trail), key);
      NothingInJoined(ms[1..], trail, key);
    }
  }

  lemma NothingInSpacing(s: string, key: string)
    requires IsSpacing(s)
    ensures FieldAt(s, Pattern(key)) == None
  {
    assert s + "" == s;
    PassQuoteFree(s, "", Pattern(key));
  }

  /** Where no key is taken for the key, nothing is read. */
  lemma NothingIsRead(o: Object, key: string)
    requires WellFormedObject(o) && FieldKey(key) && NoneOpens(o.members, key)
    ensures Field(ObjectText(o), key) == None
  {
    if o.members == [] {
      PassOpening(o.lead, o.blank + ("}" + o.trail), key);
      PassQuoteFree(o.blank, "}" + o.trail, Pattern(key));
      PassQuoteFree("}", o.trail, Pattern(key));
      NothingInSpacing(o.trail, key);
    } else {
      PassOpening(o.lead, Joined(o.members, o.trail), key);
      NothingInJoined(o.members, o.trail, key);
    }
  }
}
