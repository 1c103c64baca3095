/** The unified-diff reader and printer behind hunk-level approval (crates/agent-core/src/hunks.rs). */
module PatchFormat {
  import opened Common

  datatype PatchHunk = PatchHunk(header: string, lines: seq<string>)

  datatype PatchFile = PatchFile(headerLines: seq<string>, fileLabel: string, hunks: seq<PatchHunk>)

  const DIFF_GIT := "diff --git "

  // ---------------------------------------------------------------- header lines

  predicate StartsWith(s: string, prefix: string) {
    prefix <= s
  }

  function Find(s: string, pattern: string): (at: Option<nat>)
    ensures at.Some? ==> at.value + |pattern| <= |s|
  {
    if StartsWith(s, pattern) then Some(0)
    else if s == "" then None
    else
      match Find(s[1..], pattern)
      case None => None
      case Some(at) => Some(at + 1)
  }

  function SplitOn(s: string, c: char): (pieces: seq<string>)
    ensures pieces != []
    decreases |s|
  {
    var at := FindChar(s, c);
    if at == |s| then [s] else [s[..at]] + SplitOn(s[at + 1..], c)
  }

  /** `a[,b]` gives b, and 1 when there is no comma. */
  function RangeCount(range: string): Option<nat> {
    var comma := FindChar(range, ',');
    if comma == |range| then Some(1) else FromStrRadix(range[comma + 1..], 10, U64_MAX)
  }

  /** `@@ -a[,b] +c[,d] @@` gives (b, d). */
  function ParseHunkCounts(header: string): Option<(nat, nat)> {
    if !StartsWith(header, "@@ ") then None
    else
      var rest := header[3..];
      match Find(rest, " @@")
      case None => None
      case Some(end) =>
        var ranges := SplitOn(rest[..end], ' ');
        if |ranges| < 2 || !StartsWith(ranges[0], "-") || !StartsWith(ranges[1], "+") then None
        else
          match (RangeCount(ranges[0][1..]), RangeCount(ranges[1][1..]))
          case (Some(oldCount), Some(newCount)) => Some((oldCount, newCount))
          case _ => None
  }

  /** The length of the first whitespace-free run of `s`. */
  function WordLength(s: string): (n: nat)
    ensures n <= |s|
  {
    if s == "" || IsWhitespace(s[0]) then 0 else 1 + WordLength(s[1..])
  }

  /** The path without its `a/` or `b/`. */
  function StripSide(path: string): string {
    var trimmed := Trim(path);
    if StartsWith(trimmed, "a/") || StartsWith(trimmed, "b/") then trimmed[2..] else trimmed
  }

  function LabelFromHeaderLine(line: string): Option<string> {
    if StartsWith(line, DIFF_GIT) then
      var names := TrimStart(line[|DIFF_GIT|..]);
      var second := TrimStart(names[WordLength(names)..]);
      if WordLength(names) == 0 || WordLength(second) == 0 then None
      else Some(StripSide(second[..WordLength(second)]))
    else if StartsWith(line, "+++ ") || StartsWith(line, "--- ") then
      if Trim(line[4..]) == "/dev/null" then None else Some(StripSide(Trim(line[4..])))
    else None
  }

  // ---------------------------------------------------------------- reading

  /** The old and new lines a body line accounts for; None for a line no body may hold. */
  function BodyWeight(line: string): Option<(nat, nat)> {
    if line == "" || line[0] == ' ' then Some((1, 1))
    else if line[0] == '-' then Some((1, 0))
    else if line[0] == '+' then Some((0, 1))
    else if line[0] == '\\' then Some((0, 0))
    else None
  }

  predicate IsMarker(line: string) {
    StartsWith(line, "\\")
  }

  /** How many lines the counts of a hunk header consume. */
  function BodyLength(ls: seq<string>, oldLeft: nat, newLeft: nat): (n: Option<nat>)
    ensures n.Some? ==> n.value <= |ls|
  {
    if oldLeft == 0 && newLeft == 0 then Some(0)
    else if ls == [] then None
    else
      match BodyWeight(ls[0])
      case None => None
      case Some((removed, added)) =>
        if oldLeft < removed || newLeft < added then None
        else
          match BodyLength(ls[1..], oldLeft - removed, newLeft - added)
          case None => None
          case Some(n) => Some(n + 1)
  }

  /** A body, and the marker line after it when there is one. */
  function HunkLength(ls: seq<string>, counts: (nat, nat)): (n: Option<nat>)
    ensures n.Some? ==> n.value <= |ls|
  {
    match BodyLength(ls, counts.0, counts.1)
    case None => None
    case Some(n) => Some(if n < |ls| && IsMarker(ls[n]) then n + 1 else n)
  }

  /** The sections read so far: the finished ones, and the one new lines and hunks go to. */
  datatype Reading = Start | Reading(done: seq<PatchFile>, current: PatchFile)

  function Files(r: Reading): seq<PatchFile> {
    if r.Start? then [] else r.done + [r.current]
  }

  function AddHunk(r: Reading, hunk: PatchHunk): Reading
    requires r.Reading?
  {
    r.(current := r.current.(hunks := r.current.hunks + [hunk]))
  }

  function StepLabel(known: string, line: string): string {
    if known == "" && LabelFromHeaderLine(line).Some? then LabelFromHeaderLine(line).value else known
  }

  function AddHeaderLine(r: Reading, line: string): Reading {
    if r.Start? || StartsWith(line, DIFF_GIT) || r.current.hunks != [] then
      Reading(Files(r), PatchFile([line], StepLabel("", line), []))
    else
      r.(current := r.current.(headerLines := r.current.headerLines + [line],
                               fileLabel := StepLabel(r.current.fileLabel, line)))
  }

  predicate AllHaveHunks(files: seq<PatchFile>) {
    forall i :: 0 <= i < |files| ==> files[i].hunks != []
  }

  /** At the end of the patch: every section has its hunks, or the patch is malformed. */
  function Finish(r: Reading): Option<seq<PatchFile>> {
    if r.Reading? && AllHaveHunks(r.done) && r.current.hunks != [] then Some(Files(r)) else None
  }

  datatype Step = Malformed | Read(count: nat, next: Reading)

  /** What the next line (and, for a hunk header, its body) does: the lines consumed and the
      sections read after them. */
  function ParseStep(ls: seq<string>, r: Reading): (step: Step)
    requires ls != []
    ensures step.Read? ==> 1 <= step.count <= |ls|
  {
    if StartsWith(ls[0], "@@") then
      var counts := ParseHunkCounts(ls[0]);
      if counts.None? || r.Start? then Malformed
      else
        match HunkLength(ls[1..], counts.value)
        case None => Malformed
        case Some(n) => Read(1 + n, AddHunk(r, PatchHunk(ls[0], ls[1..1 + n])))
    else if IsBlank(ls[0]) then Read(1, r)
    else Read(1, AddHeaderLine(r, ls[0]))
  }

  /** The sections after reading `ls` too; None when the patch is malformed. */
  function ParseLines(ls: seq<string>, r: Reading): Option<seq<PatchFile>>
    decreases |ls|
  {
    if ls == [] then Finish(r)
    else
      var step := ParseStep(ls, r);
      if step.Malformed? then None else ParseLines(ls[step.count..], step.next)
  }

  function Parse(patch: string): Option<seq<PatchFile>> {
    ParseLines(Lines(patch), Start)
  }

  /** The body of the hunk whose header was just read: two counters run down to zero, and a marker
      line after the last body line belongs to the hunk. */
  method ReadHunkBody(lines: seq<string>, counts: (nat, nat)) returns (body: Option<seq<string>>)
    ensures body == match HunkLength(lines, counts)
                    case None => None
                    case Some(n) => Some(lines[..n])
  {
    var oldLeft, newLeft := counts.0, counts.1;
    var rest, n := lines, 0;
    while oldLeft > 0 || newLeft > 0
      invariant n <= |lines| && rest == lines[n..]
      invariant BodyLength(lines, counts.0, counts.1) == Later(BodyLength(rest, oldLeft, newLeft), n)
      decreases |rest|
    {
      if rest == [] {
        return None;
      }
      var weight := BodyWeight(rest[0]);
      if weight.None? || oldLeft < weight.value.0 || newLeft < weight.value.1 {
        return None;
      }
      oldLeft, newLeft := oldLeft - weight.value.0, newLeft - weight.value.1;
      rest, n := rest[1..], n + 1;
    }
    if rest != [] && IsMarker(rest[0]) {
      n := n + 1;
    }
    body := Some(lines[..n]);
  }

  ghost function Later(n: Option<nat>, k: nat): Option<nat> {
    if n.None? then None else Some(n.value + k)
  }

  method ReadStep(lines: seq<string>, r: Reading) returns (step: Step)
    requires lines != []
    ensures step == ParseStep(lines, r)
  {
    var line, rest := lines[0], lines[1..];
    if StartsWith(line, "@@") {
      var counts := ParseHunkCounts(line);
      if counts.None? || r.Start? {
        return Malformed;
      }
      var body := ReadHunkBody(rest, counts.value);
      if body.None? {
        return Malformed;
      }
      assert lines[1..1 + |body.value|] == body.value;
      return Read(1 + |body.value|, AddHunk(r, PatchHunk(line, body.value)));
    }
    TrimEmptyIffBlank(line);
    return Read(1, if Trim(line) == "" then r else AddHeaderLine(r, line));
  }

  /** The engine's reader: `rest` is what its line iterator has left. */
  method ReadLines(lines: seq<string>) returns (files: Option<seq<PatchFile>>)
    ensures files == ParseLines(lines, Start)
  {
    var rest, r := lines, Start;
    while rest != []
      invariant ParseLines(lines, Start) == ParseLines(rest, r)
      decreases |rest|
    {
      var step := ReadStep(rest, r);
      if step.Malformed? {
        return None;
      }
      rest, r := rest[step.count..], step.next;
    }
    return Finish(r);
  }

  method ParsePatch(patch: string) returns (files: Option<seq<PatchFile>>)
    ensures files == Parse(patch)
  {
    files := ReadLines(Lines(patch));
  }

  // ---------------------------------------------------------------- printing

  function PrintHunks(hunks: seq<PatchHunk>): seq<string> {
    if hunks == [] then [] else [hunks[0].header] + hunks[0].lines + PrintHunks(hunks[1..])
  }

  function Print(files: seq<PatchFile>): seq<string> {
    if files == [] then [] else files[0].headerLines + PrintHunks(files[0].hunks) + Print(files[1..])
  }

  /** The text a list of sections is written as. */
  function PrintText(files: seq<PatchFile>): string {
    Unlines(Print(files))
  }
}
