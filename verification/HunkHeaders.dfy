/** What the reader of unified diffs takes from header lines, and which lines the counts of a hunk
    header stand for (crates/agent-core/src/hunks.rs). */
module HunkHeaders {
  import opened Common
  import opened PatchFormat
  import opened PatchRoundTrip

  // ---------------------------------------------------------------- counts in a hunk header

  /** `a,b`, or `a` alone where the count is left out. */
  function RangeText(start: nat, count: Option<nat>): string {
    if count.Some? then Decimal(start) + "," + Decimal(count.value) else Decimal(start)
  }

  function HunkHeader(minus: string, plus: string, tail: string): string {
    "@@ -" + minus + " +" + plus + " @@" + tail
  }

  function CountOf(count: Option<nat>): nat {
    if count.Some? then count.value else 1
  }

  lemma DecimalIsDigits(n: nat)
    ensures ' ' !in Decimal(n) && ',' !in Decimal(n) && '@' !in Decimal(n) && '+' !in Decimal(n)
  {
    DecimalReadsBack(n);
    forall c | c in Decimal(n) ensures c != ' ' && c != ',' && c != '@' && c != '+' {
      assert '0' <= c <= '9';
    }
  }

  lemma RangeIsPlain(start: nat, count: Option<nat>, side: char)
    requires side == '-' || side == '+'
    ensures ' ' !in [side] + RangeText(start, count) && '@' !in [side] + RangeText(start, count)
  {
    DecimalIsDigits(start);
    if count.Some? {
      DecimalIsDigits(count.value);
    }
  }

  lemma DecimalParses(n: nat)
    ensures FromStrRadix(Decimal(n), 10, U64_MAX) == if n <= U64_MAX then Some(n) else None
  {
    DecimalReadsBack(n);
    DecimalIsDigits(n);
    assert Decimal(n)[0] in Decimal(n);
  }

  lemma RangeCounts(start: nat, count: Option<nat>)
    ensures RangeCount(RangeText(start, count)) == if CountOf(count) <= U64_MAX then Some(CountOf(count)) else None
  {
    var range := RangeText(start, count);
    DecimalIsDigits(start);
    if count.Some? {
      assert range == Decimal(start) + [','] + Decimal(count.value);
      FindCharAfter(Decimal(start), ',', Decimal(count.value));
      assert range[|Decimal(start)| + 1..] == Decimal(count.value);
      DecimalParses(count.value);
    } else {
      FindCharNone(range, ',');
    }
  }

  /** The ranges end at the first ` @@`. */
  lemma {:induction false} RangesEnd(ranges: string, tail: string)
    requires '@' !in ranges
    ensures Find(ranges + " @@" + tail, " @@") == Some(|ranges|)
  {
    var s, end := ranges + " @@" + tail, " @@";
    if ranges == "" {
      assert s[..3] == end;
    } else {
      assert s[1] != '@' by {
        if |ranges| > 1 {
          assert s[1] == ranges[1] && ranges[1] in ranges;
        }
      }
      assert end[1] == '@';
      assert s[1..] == ranges[1..] + " @@" + tail;
      RangesEnd(ranges[1..], tail);
    }
  }

  lemma SplitPair(a: string, b: string)
    requires ' ' !in a && ' ' !in b
    ensures SplitOn(a + " " + b, ' ') == [a, b]
  {
    var s := a + [' '] + b;
    FindCharAfter(a, ' ', b);
    assert s[..|a|] == a && s[|a| + 1..] == b;
    FindCharNone(b, ' ');
    assert SplitOn(b, ' ') == [b];
  }

  lemma HeaderIsRanges(minus: string, plus: string, tail: string)
    ensures var header := HunkHeader(minus, plus, tail);
            StartsWith(header, "@@ ") && header[3..] == ("-" + minus) + " " + ("+" + plus) + " @@" + tail
  {
    assert "@@ -"[..3] == "@@ " && "@@ -"[3..] == "-" && " +" == " " + "+";
  }

  lemma RangesOfHeader(minus: string, plus: string, tail: string)
    requires ' ' !in "-" + minus && '@' !in "-" + minus && ' ' !in "+" + plus && '@' !in "+" + plus
    ensures var rest := HunkHeader(minus, plus, tail)[3..];
            var end := Find(rest, " @@");
            end.Some? && SplitOn(rest[..end.value], ' ') == ["-" + minus, "+" + plus]
  {
    var ranges := ("-" + minus) + " " + ("+" + plus);
    HeaderIsRanges(minus, plus, tail);
    RangesEnd(ranges, tail);
    SplitPair("-" + minus, "+" + plus);
    assert HunkHeader(minus, plus, tail)[3..][..|ranges|] == ranges;
  }

  /** A hunk header gives the counts of its two ranges, in their order, and 1 for a count that is left out;
      it is refused exactly if one of them is too large. Where the ranges start and what follows the
      header make no difference. */
  lemma HeaderCounts(oldStart: nat, oldCount: Option<nat>, newStart: nat, newCount: Option<nat>, tail: string)
    ensures ParseHunkCounts(HunkHeader(RangeText(oldStart, oldCount), RangeText(newStart, newCount), tail)) ==
            if CountOf(oldCount) <= U64_MAX && CountOf(newCount) <= U64_MAX
            then Some((CountOf(oldCount), CountOf(newCount))) else None
  {
    var minus, plus := RangeText(oldStart, oldCount), RangeText(newStart, newCount);
    RangeIsPlain(oldStart, oldCount, '-');
    RangeIsPlain(newStart, newCount, '+');
    HeaderIsRanges(minus, plus, tail);
    RangesOfHeader(minus, plus, tail);
    RangeCounts(oldStart, oldCount);
    RangeCounts(newStart, newCount);
    SidesOfRange(minus, '-');
    SidesOfRange(plus, '+');
  }

  lemma SidesOfRange(range: string, side: char)
    ensures ([side] + range)[1..] == range && StartsWith([side] + range, [side])
  {
  }

  // ---------------------------------------------------------------- the lines they count

  /** An empty line is a context line whose space was lost. */
  function Kind(line: string): char {
    if line == "" then ' ' else line[0]
  }

  function CountKinds(lines: seq<string>, kinds: set<char>): nat {
    if lines == [] then 0 else (if Kind(lines[0]) in kinds then 1 else 0) + CountKinds(lines[1..], kinds)
  }

  const OLD_KINDS := {' ', '-'}
  const NEW_KINDS := {' ', '+'}

  predicate KnownKind(line: string) {
    Kind(line) in {' ', '-', '+', '\\'}
  }

  /** Lines of the four kinds, as many on each side as counted, the last of which counts. */
  predicate IsBody(body: seq<string>, oldCount: nat, newCount: nat) {
    && (forall i :: 0 <= i < |body| ==> KnownKind(body[i]))
    && CountKinds(body, OLD_KINDS) == oldCount && CountKinds(body, NEW_KINDS) == newCount
    && (body != [] ==> Kind(body[|body| - 1]) != '\\')
  }

  lemma WeightCounts(line: string)
    ensures BodyWeight(line).Some? <==> KnownKind(line)
    ensures BodyWeight(line).Some? ==>
              BodyWeight(line).value == (if Kind(line) in OLD_KINDS then 1 else 0, if Kind(line) in NEW_KINDS then 1 else 0)
  {
  }

  lemma CountFirst(line: string, rest: seq<string>, kinds: set<char>)
    ensures CountKinds([line] + rest, kinds) == (if Kind(line) in kinds then 1 else 0) + CountKinds(rest, kinds)
  {
    assert ([line] + rest)[1..] == rest;
  }

  lemma FirstOfBody(line: string, rest: seq<string>, oldCount: nat, newCount: nat)
    ensures IsBody([line] + rest, oldCount, newCount) <==>
            && !(oldCount == 0 && newCount == 0) && BodyWeight(line).Some?
            && BodyWeight(line).value.0 <= oldCount && BodyWeight(line).value.1 <= newCount
            && IsBody(rest, oldCount - BodyWeight(line).value.0, newCount - BodyWeight(line).value.1)
  {
    var body := [line] + rest;
    WeightCounts(line);
    CountFirst(line, rest, OLD_KINDS);
    CountFirst(line, rest, NEW_KINDS);
    assert body[0] == line && forall i :: 0 <= i < |rest| ==> body[i + 1] == rest[i];
    if KnownKind(body[|body| - 1]) {
      LastCounts(body);
    }
    if (forall i :: 0 <= i < |rest| ==> KnownKind(rest[i])) && KnownKind(line) {
      assert forall i :: 1 <= i < |body| ==> body[i] == rest[i - 1];
    }
  }

  lemma {:induction false} LastCounts(body: seq<string>)
    requires body != [] ==> KnownKind(body[|body| - 1])
    ensures body != [] && Kind(body[|body| - 1]) != '\\' ==> CountKinds(body, OLD_KINDS) + CountKinds(body, NEW_KINDS) > 0
  {
    if |body| > 1 {
      LastCounts(body[1..]);
    }
  }

  /** A body is read for two counts exactly if the lines read are one: it ends with the line that
      completes both counts. */
  lemma {:induction false} BodyExactly(ls: seq<string>, oldCount: nat, newCount: nat, n: nat)
    ensures BodyLength(ls, oldCount, newCount) == Some(n) <==> n <= |ls| && IsBody(ls[..n], oldCount, newCount)
  {
    if 0 < n <= |ls| {
      assert ls[..n] == [ls[0]] + ls[1..][..n - 1];
      FirstOfBody(ls[0], ls[1..][..n - 1], oldCount, newCount);
      var weight := BodyWeight(ls[0]);
      if weight.Some? && weight.value.0 <= oldCount && weight.value.1 <= newCount {
        BodyExactly(ls[1..], oldCount - weight.value.0, newCount - weight.value.1, n - 1);
      }
    }
  }

  lemma {:induction false} MarkerCountsNone(body: seq<string>, marker: string, kinds: set<char>)
    requires Kind(marker) !in kinds
    ensures CountKinds(body + [marker], kinds) == CountKinds(body, kinds)
  {
    if body == [] {
      CountFirst(marker, [], kinds);
      assert body + [marker] == [marker] + [];
    } else {
      assert (body + [marker])[1..] == body[1..] + [marker];
      MarkerCountsNone(body[1..], marker, kinds);
    }
  }

  lemma CountedHunk(h: PatchHunk)
    requires Counted(h)
    ensures var counts := ParseHunkCounts(h.header).value;
            && CountKinds(h.lines, OLD_KINDS) == counts.0 && CountKinds(h.lines, NEW_KINDS) == counts.1
            && forall i :: 0 <= i < |h.lines| ==> KnownKind(h.lines[i])
  {
    var counts := ParseHunkCounts(h.header).value;
    var n := BodyLength(h.lines, counts.0, counts.1).value;
    BodyExactly(h.lines, counts.0, counts.1, n);
    if n < |h.lines| {
      assert h.lines == h.lines[..n] + [h.lines[n]];
      MarkerCountsNone(h.lines[..n], h.lines[n], OLD_KINDS);
      MarkerCountsNone(h.lines[..n], h.lines[n], NEW_KINDS);
    } else {
      assert h.lines[..n] == h.lines;
    }
  }

  /** In every hunk of every patch that is read, the context and `-` lines are as many as the header's old
      count, the context and `+` lines as many as its new count, and no other line is in it but
      markers. */
  lemma HunksHoldTheirCounts(patch: string, f: nat, k: nat)
    requires Parse(patch).Some? && f < |Parse(patch).value| && k < |Parse(patch).value[f].hunks|
    ensures var h := Parse(patch).value[f].hunks[k];
            var counts := ParseHunkCounts(h.header);
            && counts == Some((CountKinds(h.lines, OLD_KINDS), CountKinds(h.lines, NEW_KINDS)))
            && forall i :: 0 <= i < |h.lines| ==> KnownKind(h.lines[i])
  {
    LinesHoldNoNewline(patch);
    ParsedIsWellFormed(Lines(patch), Start);
    assert WellFormed(Parse(patch).value[f]);
    CountedHunk(Parse(patch).value[f].hunks[k]);
  }

  // ---------------------------------------------------------------- the file a section is about

  predicate Bare(path: string) {
    path != "" && !IsWhitespace(path[0]) && !IsWhitespace(path[|path| - 1])
  }

  lemma BareIsTrimmed(path: string)
    requires Bare(path)
    ensures Trim(path) == path
  {
  }

  predicate HasSide(path: string) {
    StartsWith(path, "a/") || StartsWith(path, "b/")
  }

  /** The file lines of a section name its file, with the `a/` or `b/` of that side or without one. */
  lemma FileLineLabel(side: string, path: string)
    requires (side == "+++ " || side == "--- ") && Bare(path)
    ensures LabelFromHeaderLine(side + path) == if path == "/dev/null" then None else Some(if HasSide(path) then path[2..] else path)
  {
    var line := side + path;
    assert line[4..] == path && line[..4] == side && line[0] == side[0];
    assert DIFF_GIT[0] == 'd';
    BareIsTrimmed(path);
  }

  predicate OneWord(word: string) {
    word != "" && forall i :: 0 <= i < |word| ==> !IsWhitespace(word[i])
  }

  lemma {:induction false} WordEnds(word: string, rest: string)
    requires forall i :: 0 <= i < |word| ==> !IsWhitespace(word[i])
    requires rest != "" ==> IsWhitespace(rest[0])
    ensures WordLength(word + rest) == |word|
  {
    if word != "" {
      assert (word + rest)[1..] == word[1..] + rest;
      WordEnds(word[1..], rest);
    } else {
      assert word + rest == rest;
    }
  }

  /** The first line of a section names the file on its new side. */
  lemma GitLineLabel(from: string, to: string)
    requires OneWord(from) && OneWord(to)
    ensures LabelFromHeaderLine("diff --git " + from + " " + to) == Some(if HasSide(to) then to[2..] else to)
  {
    var line, names := DIFF_GIT + from + " " + to, from + (" " + to);
    assert line == DIFF_GIT + names && line[..|DIFF_GIT|] == DIFF_GIT && line[|DIFF_GIT|..] == names;
    assert names[0] == from[0] && TrimStart(names) == names;
    WordEnds(from, " " + to);
    SecondWord(from, to);
    assert to + "" == to;
    WordEnds(to, "");
    BareIsTrimmed(to);
  }

  lemma SecondWord(from: string, to: string)
    requires OneWord(to)
    ensures TrimStart((from + (" " + to))[|from|..]) == to
  {
    assert (from + (" " + to))[|from|..] == " " + to;
    assert (" " + to)[1..] == to && IsWhitespace(' ') && (" " + to)[0] == ' ';
    assert TrimStart(to) == to;
  }
}
