/** Printing sections and reading them back: when it is the identity, exactly. */
module PatchRoundTrip {
  import opened Common
  import opened PatchFormat

  // ---------------------------------------------------------------- what the reader produces

  function Last<T>(s: seq<T>): T
    requires s != []
  {
    s[|s| - 1]
  }

  function LabelOf(headerLines: seq<string>): string {
    if headerLines == [] then ""
    else StepLabel(LabelOf(headerLines[..|headerLines| - 1]), Last(headerLines))
  }

  predicate HeaderLine(line: string) {
    !StartsWith(line, "@@") && !IsBlank(line) && '\n' !in line
  }

  predicate Headed(f: PatchFile) {
    && f.headerLines != []
    && (forall i :: 0 <= i < |f.headerLines| ==> HeaderLine(f.headerLines[i]))
    && (forall i :: 1 <= i < |f.headerLines| ==> !StartsWith(f.headerLines[i], DIFF_GIT))
    && f.fileLabel == LabelOf(f.headerLines)
  }

  /** Whether the hunk ends with its "no newline at end of file" marker. */
  predicate HasMarker(h: PatchHunk) {
    h.lines != [] && IsMarker(Last(h.lines))
  }

  /** The body is what the header's counts consume, with or without a marker after it. */
  predicate Counted(h: PatchHunk) {
    && StartsWith(h.header, "@@")
    && ParseHunkCounts(h.header).Some?
    && '\n' !in h.header
    && (forall i :: 0 <= i < |h.lines| ==> '\n' !in h.lines[i])
    && HunkLength(h.lines, ParseHunkCounts(h.header).value) == Some(|h.lines|)
  }

  predicate AllCounted(hunks: seq<PatchHunk>) {
    forall i :: 0 <= i < |hunks| ==> Counted(hunks[i])
  }

  predicate WellFormed(f: PatchFile) {
    Headed(f) && AllCounted(f.hunks)
  }

  predicate AllWellFormed(files: seq<PatchFile>) {
    forall i :: 0 <= i < |files| ==> WellFormed(files[i])
  }

  lemma MovesOver<T>(a: seq<T>, b: seq<T>)
    requires b != []
    ensures a + [b[0]] + b[1..] == a + b
  {
  }

  lemma {:induction false} BodyPrefix(ls: seq<string>, oldLeft: nat, newLeft: nat)
    requires BodyLength(ls, oldLeft, newLeft).Some?
    ensures var n := BodyLength(ls, oldLeft, newLeft).value;
            BodyLength(ls[..n], oldLeft, newLeft) == Some(n) && (n > 0 ==> !IsMarker(ls[n - 1]))
  {
    var n := BodyLength(ls, oldLeft, newLeft).value;
    if n > 0 {
      var weight := BodyWeight(ls[0]).value;
      BodyPrefix(ls[1..], oldLeft - weight.0, newLeft - weight.1);
      assert ls[..n][1..] == ls[1..][..n - 1];
    }
  }

  lemma {:induction false} BodyIgnoresRest(ls: seq<string>, rest: seq<string>, oldLeft: nat, newLeft: nat)
    requires BodyLength(ls, oldLeft, newLeft).Some?
    ensures BodyLength(ls + rest, oldLeft, newLeft) == BodyLength(ls, oldLeft, newLeft)
  {
    if !(oldLeft == 0 && newLeft == 0) {
      var weight := BodyWeight(ls[0]).value;
      assert (ls + rest)[0] == ls[0] && (ls + rest)[1..] == ls[1..] + rest;
      BodyIgnoresRest(ls[1..], rest, oldLeft - weight.0, newLeft - weight.1);
    }
  }

  lemma BodyIsCounted(ls: seq<string>, counts: (nat, nat))
    requires HunkLength(ls, counts).Some?
    ensures var n := HunkLength(ls, counts).value; HunkLength(ls[..n], counts) == Some(n)
  {
    var n := HunkLength(ls, counts).value;
    var k := BodyLength(ls, counts.0, counts.1).value;
    BodyPrefix(ls, counts.0, counts.1);
    BodyIgnoresRest(ls[..k], ls[k..n], counts.0, counts.1);
    assert ls[..k] + ls[k..n] == ls[..n];
  }

  lemma LabelOfMore(read: seq<string>, line: string)
    ensures LabelOf(read + [line]) == StepLabel(LabelOf(read), line)
  {
    assert (read + [line])[..|read|] == read;
  }

  lemma AddedLineIsHeaded(r: Reading, line: string)
    requires AllWellFormed(Files(r)) && HeaderLine(line)
    ensures AllWellFormed(Files(AddHeaderLine(r, line)))
  {
    var next := AddHeaderLine(r, line);
    FilesWellFormed(next);
    FilesWellFormed(r);
    LabelOfMore([], line);
    assert [] + [line] == [line];
    if r.Reading? {
      LabelOfMore(r.current.headerLines, line);
    }
    assert Headed(next.current);
  }

  lemma FilesWellFormed(r: Reading)
    ensures AllWellFormed(Files(r)) <==> r.Start? || (AllWellFormed(r.done) && WellFormed(r.current))
  {
    if r.Reading? {
      assert forall i :: 0 <= i < |r.done| ==> r.done[i] == Files(r)[i];
      assert Files(r)[|r.done|] == r.current;
    }
  }

  lemma AddedHunkIsCounted(r: Reading, h: PatchHunk)
    requires AllWellFormed(Files(r)) && r.Reading? && Counted(h)
    ensures AllWellFormed(Files(AddHunk(r, h)))
  {
    FilesWellFormed(r);
    FilesWellFormed(AddHunk(r, h));
  }

  lemma StepKeepsWellFormed(ls: seq<string>, r: Reading)
    requires ls != [] && ParseStep(ls, r).Read? && AllWellFormed(Files(r))
    requires forall l :: l in ls ==> '\n' !in l
    ensures AllWellFormed(Files(ParseStep(ls, r).next))
  {
    var n := ParseStep(ls, r).count;
    assert ls[0] in ls;
    if StartsWith(ls[0], "@@") {
      BodyIsCounted(ls[1..], ParseHunkCounts(ls[0]).value);
      assert ls[1..][..n - 1] == ls[1..n];
      assert forall i :: 0 <= i < |ls[1..n]| ==> ls[1..n][i] in ls;
      AddedHunkIsCounted(r, PatchHunk(ls[0], ls[1..n]));
    } else if !IsBlank(ls[0]) {
      AddedLineIsHeaded(r, ls[0]);
    }
  }

  lemma {:induction false} ParsedIsWellFormed(ls: seq<string>, r: Reading)
    requires ParseLines(ls, r).Some? && AllWellFormed(Files(r))
    requires forall l :: l in ls ==> '\n' !in l
    ensures ParseLines(ls, r).value != []
    ensures AllWellFormed(ParseLines(ls, r).value) && AllHaveHunks(ParseLines(ls, r).value)
    decreases |ls|
  {
    if ls != [] {
      StepKeepsWellFormed(ls, r);
      ParsedIsWellFormed(ls[ParseStep(ls, r).count..], ParseStep(ls, r).next);
    }
  }

  // ---------------------------------------------------------------- reading back what was printed

  /** A hunk without a marker takes a marker-like line that follows it. */
  predicate Swallows(h: PatchHunk, rest: seq<string>) {
    !HasMarker(h) && rest != [] && IsMarker(rest[0])
  }

  lemma HunkLengthWithRest(body: seq<string>, rest: seq<string>, counts: (nat, nat))
    requires HunkLength(body, counts) == Some(|body|)
    ensures HunkLength(body + rest, counts) ==
            Some(if (body == [] || !IsMarker(Last(body))) && rest != [] && IsMarker(rest[0]) then |body| + 1 else |body|)
  {
    var k := BodyLength(body, counts.0, counts.1).value;
    BodyPrefix(body, counts.0, counts.1);
    BodyIgnoresRest(body, rest, counts.0, counts.1);
    if k < |body| {
      assert (body + rest)[k] == body[k];
    } else if rest != [] {
      assert (body + rest)[k] == rest[0];
    }
  }

  function Longer(h: PatchHunk, line: string): PatchHunk {
    h.(lines := h.lines + [line])
  }

  lemma HunkStep(ls: seq<string>, r: Reading, counts: (nat, nat), n: nat)
    requires ls != [] && r.Reading? && StartsWith(ls[0], "@@")
    requires ParseHunkCounts(ls[0]) == Some(counts) && HunkLength(ls[1..], counts) == Some(n)
    ensures ParseLines(ls, r) == ParseLines(ls[1 + n..], AddHunk(r, PatchHunk(ls[0], ls[1..1 + n])))
  {
  }

  lemma Slices<T>(x: T, body: seq<T>, rest: seq<T>)
    ensures var s := [x] + body + rest;
            && s[0] == x && s[1..] == body + rest
            && s[1..1 + |body|] == body && s[1 + |body|..] == rest
            && (rest != [] ==> s[1..2 + |body|] == body + [rest[0]] && s[2 + |body|..] == rest[1..])
  {
  }

  lemma ReadHunk(h: PatchHunk, rest: seq<string>, r: Reading)
    requires Counted(h) && r.Reading?
    ensures var ls := [h.header] + h.lines + rest;
            ParseLines(ls, r) ==
            if Swallows(h, rest) then ParseLines(rest[1..], AddHunk(r, Longer(h, rest[0])))
            else ParseLines(rest, AddHunk(r, h))
  {
    var counts := ParseHunkCounts(h.header).value;
    var n := if Swallows(h, rest) then |h.lines| + 1 else |h.lines|;
    HunkLengthWithRest(h.lines, rest, counts);
    Slices(h.header, h.lines, rest);
    HunkStep([h.header] + h.lines + rest, r, counts, n);
  }

  function AddHunks(r: Reading, hunks: seq<PatchHunk>): Reading
    requires r.Reading?
  {
    r.(current := r.current.(hunks := r.current.hunks + hunks))
  }

  lemma NextHunkIsNoMarker(hunks: seq<PatchHunk>, rest: seq<string>)
    requires AllCounted(hunks) && hunks != [] && !Swallows(Last(hunks), rest)
    ensures !Swallows(hunks[0], PrintHunks(hunks[1..]) + rest)
  {
    if |hunks| > 1 {
      assert Counted(hunks[1]) && hunks[1].header[0] == '@';
      assert (PrintHunks(hunks[1..]) + rest)[0] == hunks[1].header;
    } else {
      assert PrintHunks(hunks[1..]) + rest == rest;
    }
  }

  lemma {:induction false} ReadHunks(hunks: seq<PatchHunk>, rest: seq<string>, r: Reading)
    requires r.Reading? && AllCounted(hunks)
    requires hunks == [] || !Swallows(Last(hunks), rest)
    ensures ParseLines(PrintHunks(hunks) + rest, r) == ParseLines(rest, AddHunks(r, hunks))
  {
    if hunks == [] {
      assert r.current.hunks + [] == r.current.hunks;
      assert PrintHunks(hunks) + rest == rest;
    } else {
      var h, tail := hunks[0], PrintHunks(hunks[1..]) + rest;
      Associates([h.header] + h.lines, PrintHunks(hunks[1..]), rest);
      NextHunkIsNoMarker(hunks, rest);
      ReadHunk(h, tail, r);
      ReadHunks(hunks[1..], rest, AddHunk(r, h));
      MovesOver(r.current.hunks, hunks);
    }
  }

  /** The section being read has its hunks, so the next header line opens another. */
  predicate Closed(r: Reading) {
    r.Start? || r.current.hunks != []
  }

  /** The sections after the first `k` header lines of `f`. */
  function Opening(r: Reading, f: PatchFile, k: nat): Reading
    requires k <= |f.headerLines|
  {
    if k == 0 then r else Reading(Files(r), PatchFile(f.headerLines[..k], LabelOf(f.headerLines[..k]), []))
  }

  lemma OpenOneMore(r: Reading, f: PatchFile, k: nat)
    requires Headed(f) && Closed(r) && k < |f.headerLines|
    ensures AddHeaderLine(Opening(r, f, k), f.headerLines[k]) == Opening(r, f, k + 1)
  {
    var read, line := f.headerLines[..k], f.headerLines[k];
    assert f.headerLines[..k + 1] == read + [line];
    LabelOfMore(read, line);
    assert [] + [line] == [line];
  }

  lemma {:induction false} ReadHeaders(f: PatchFile, k: nat, rest: seq<string>, r: Reading)
    requires Headed(f) && Closed(r) && k <= |f.headerLines|
    ensures ParseLines(f.headerLines[k..] + rest, Opening(r, f, k)) ==
            ParseLines(rest, Reading(Files(r), f.(hunks := [])))
    decreases |f.headerLines| - k
  {
    var ls := f.headerLines[k..] + rest;
    if k == |f.headerLines| {
      assert f.headerLines[..k] == f.headerLines && ls == rest;
    } else {
      assert HeaderLine(f.headerLines[k]);
      assert ls[0] == f.headerLines[k] && ls[1..] == f.headerLines[k + 1..] + rest;
      OpenOneMore(r, f, k);
      assert ParseStep(ls, Opening(r, f, k)) == Read(1, Opening(r, f, k + 1));
      ReadHeaders(f, k + 1, rest, r);
    }
  }

  /** Two neighbouring sections the reader cannot tell apart: the first ends without a marker and
      the second opens with a line that reads as one. */
  predicate Clash(f: PatchFile, g: PatchFile) {
    f.hunks != [] && !HasMarker(Last(f.hunks)) && g.headerLines != [] && IsMarker(g.headerLines[0])
  }

  predicate Separable(files: seq<PatchFile>) {
    forall i :: 0 <= i < |files| - 1 ==> !Clash(files[i], files[i + 1])
  }

  lemma ReadSection(f: PatchFile, rest: seq<string>, r: Reading)
    requires WellFormed(f) && f.hunks != [] && Closed(r)
    requires !Swallows(Last(f.hunks), rest)
    ensures ParseLines(f.headerLines + PrintHunks(f.hunks) + rest, r) == ParseLines(rest, Reading(Files(r), f))
  {
    ReadHeaders(f, 0, PrintHunks(f.hunks) + rest, r);
    ReadHunks(f.hunks, rest, Reading(Files(r), f.(hunks := [])));
    assert [] + f.hunks == f.hunks && f.headerLines[0..] == f.headerLines;
    Associates(f.headerLines, PrintHunks(f.hunks), rest);
  }

  lemma PrintFirst(files: seq<PatchFile>)
    requires files != [] && AllWellFormed(files)
    ensures files[0].headerLines != [] && Print(files) != [] && Print(files)[0] == files[0].headerLines[0]
  {
    assert WellFormed(files[0]);
  }

  lemma SeparableParts(files: seq<PatchFile>)
    requires AllWellFormed(files) && AllHaveHunks(files) && files != []
    ensures Separable(files) <==> !Swallows(Last(files[0].hunks), Print(files[1..])) && Separable(files[1..])
  {
    var tail := files[1..];
    assert forall i :: 0 <= i < |tail| ==> tail[i] == files[i + 1];
    if tail != [] {
      PrintFirst(tail);
      assert Clash(files[0], files[1]) <==> Swallows(Last(files[0].hunks), Print(tail));
      assert forall i :: 0 <= i < |tail| - 1 ==> Clash(tail[i], tail[i + 1]) == Clash(files[i + 1], files[i + 2]);
      if Separable(tail) && !Clash(files[0], files[1]) {
        forall i | 0 <= i < |files| - 1 ensures !Clash(files[i], files[i + 1]) {
          if i > 0 {
            assert !Clash(tail[i - 1], tail[i]);
          }
        }
      }
    }
  }

  lemma {:induction false} ReadSections(todo: seq<PatchFile>, r: Reading)
    requires AllWellFormed(todo) && AllHaveHunks(todo) && Separable(todo)
    requires Closed(r) && AllHaveHunks(Files(r)) && (r.Reading? || todo != [])
    ensures ParseLines(Print(todo), r) == Some(Files(r) + todo)
  {
    if todo == [] {
      assert AllHaveHunks(r.done) by {
        assert forall i :: 0 <= i < |r.done| ==> r.done[i] == Files(r)[i];
      }
      assert Files(r) + todo == Files(r);
    } else {
      SeparableParts(todo);
      ReadSection(todo[0], Print(todo[1..]), r);
      ReadSections(todo[1..], Reading(Files(r), todo[0]));
      MovesOver(Files(r), todo);
    }
  }

  // ---------------------------------------------------------------- when reading back fails

  /** Hunks once read stay as they are. */
  predicate Grows(before: seq<PatchFile>, after: seq<PatchFile>) {
    |before| <= |after| && forall i :: 0 <= i < |before| ==> before[i].hunks <= after[i].hunks
  }

  lemma StepKeepsHunks(ls: seq<string>, r: Reading)
    requires ls != [] && ParseStep(ls, r).Read?
    ensures Grows(Files(r), Files(ParseStep(ls, r).next))
  {
  }

  lemma GrowsOn(first: seq<PatchFile>, second: seq<PatchFile>, third: seq<PatchFile>)
    requires Grows(first, second) && Grows(second, third)
    ensures Grows(first, third)
  {
  }

  lemma {:induction false} ReadHunksStay(ls: seq<string>, r: Reading)
    requires ParseLines(ls, r).Some?
    ensures Grows(Files(r), ParseLines(ls, r).value)
    decreases |ls|
  {
    if ls != [] {
      var step := ParseStep(ls, r);
      StepKeepsHunks(ls, r);
      ReadHunksStay(ls[step.count..], step.next);
      GrowsOn(Files(r), Files(step.next), ParseLines(ls, r).value);
    }
  }

  lemma ReadSwallowedHunks(init: seq<PatchHunk>, last: PatchHunk, rest: seq<string>, r: Reading)
    requires AllCounted(init) && Counted(last) && r.Reading? && Swallows(last, rest)
    ensures ParseLines(PrintHunks(init) + ([last.header] + last.lines + rest), r) ==
            ParseLines(rest[1..], AddHunk(AddHunks(r, init), Longer(last, rest[0])))
  {
    var tail := [last.header] + last.lines + rest;
    assert tail[0] == last.header && last.header[0] == '@';
    ReadHunks(init, tail, r);
    ReadHunk(last, rest, AddHunks(r, init));
  }

  /** Reading a section whose last hunk swallows the line after it. */
  lemma ReadSwallowed(f: PatchFile, init: seq<PatchHunk>, last: PatchHunk, rest: seq<string>, r: Reading)
    requires Headed(f) && AllCounted(init) && Counted(last) && Closed(r) && Swallows(last, rest)
    ensures ParseLines(f.headerLines + PrintHunks(init + [last]) + rest, r) ==
            ParseLines(rest[1..], Reading(Files(r), f.(hunks := init + [Longer(last, rest[0])])))
  {
    ReadHeaders(f, 0, PrintHunks(init + [last]) + rest, r);
    Associates(f.headerLines, PrintHunks(init + [last]), rest);
    PrintHunksAdd(init, last);
    Associates(PrintHunks(init), [last.header] + last.lines, rest);
    ReadSwallowedHunks(init, last, rest, Reading(Files(r), f.(hunks := [])));
    assert f.headerLines[0..] == f.headerLines && [] + init == init;
  }

  lemma SplitLast(hunks: seq<PatchHunk>) returns (init: seq<PatchHunk>, last: PatchHunk)
    requires hunks != []
    ensures hunks == init + [last] && last == Last(hunks)
    ensures AllCounted(hunks) ==> AllCounted(init) && Counted(last)
  {
    init, last := hunks[..|hunks| - 1], Last(hunks);
  }

  lemma LongerIsOther(init: seq<PatchHunk>, last: PatchHunk, line: string, hunks: seq<PatchHunk>)
    requires init + [Longer(last, line)] <= hunks
    ensures hunks != init + [last]
  {
    assert hunks[|init|] == (init + [Longer(last, line)])[|init|];
  }

  lemma ClashBreaksHere(f: PatchFile, init: seq<PatchHunk>, last: PatchHunk, rest: seq<string>, r: Reading)
    requires Headed(f) && AllCounted(init) && Counted(last) && Closed(r) && Swallows(last, rest)
    ensures var files := ParseLines(f.headerLines + PrintHunks(init + [last]) + rest, r);
            files.Some? ==> |files.value| <= |Files(r)| || files.value[|Files(r)|].hunks != init + [last]
  {
    var swallowed := Reading(Files(r), f.(hunks := init + [Longer(last, rest[0])]));
    ReadSwallowed(f, init, last, rest, r);
    var files := ParseLines(rest[1..], swallowed);
    if files.Some? {
      ReadHunksStay(rest[1..], swallowed);
      assert Files(swallowed)[|Files(r)|] == swallowed.current;
      LongerIsOther(init, last, rest[0], files.value[|Files(r)|].hunks);
    }
  }

  lemma {:induction false} PrintHunksSplit(hunks: seq<PatchHunk>)
    requires hunks != []
    ensures var m := |hunks| - 1;
            PrintHunks(hunks) == PrintHunks(hunks[..m]) + ([hunks[m].header] + hunks[m].lines)
  {
    var m := |hunks| - 1;
    if m > 0 {
      PrintHunksSplit(hunks[1..]);
      assert hunks[1..][..m - 1] == hunks[..m][1..];
    } else {
      assert PrintHunks(hunks[1..]) == [];
    }
  }

  lemma {:induction false} ClashBreaks(todo: seq<PatchFile>, r: Reading)
    requires AllWellFormed(todo) && AllHaveHunks(todo) && !Separable(todo) && Closed(r)
    ensures ParseLines(Print(todo), r) != Some(Files(r) + todo)
  {
    SeparableParts(todo);
    if Swallows(Last(todo[0].hunks), Print(todo[1..])) {
      var init, last := SplitLast(todo[0].hunks);
      ClashBreaksHere(todo[0], init, last, Print(todo[1..]), r);
      assert (Files(r) + todo)[|Files(r)|] == todo[0];
    } else {
      ReadSection(todo[0], Print(todo[1..]), r);
      ClashBreaks(todo[1..], Reading(Files(r), todo[0]));
      MovesOver(Files(r), todo);
    }
  }

  lemma PrintHunksAdd(hunks: seq<PatchHunk>, h: PatchHunk)
    ensures PrintHunks(hunks + [h]) == PrintHunks(hunks) + ([h.header] + h.lines)
  {
    PrintHunksSplit(hunks + [h]);
    assert (hunks + [h])[..|hunks|] == hunks;
  }

  // ---------------------------------------------------------------- carriage returns

  function Size(ls: seq<string>): nat {
    if ls == [] then 0 else |ls[0]| + Size(ls[1..])
  }

  lemma {:induction false} SizeSplit(a: seq<string>, b: seq<string>)
    ensures Size(a + b) == Size(a) + Size(b)
  {
    if a == [] {
      assert a + b == b;
    } else {
      assert (a + b)[1..] == a[1..] + b;
      SizeSplit(a[1..], b);
    }
  }

  lemma SizeCut(ls: seq<string>, n: nat)
    requires n <= |ls|
    ensures Size(ls) == Size(ls[..n]) + Size(ls[n..])
  {
    SizeSplit(ls[..n], ls[n..]);
    assert ls[..n] + ls[n..] == ls;
  }

  lemma {:induction false} PrintSplit(a: seq<PatchFile>, b: seq<PatchFile>)
    ensures Print(a + b) == Print(a) + Print(b)
  {
    if a == [] {
      assert a + b == b;
    } else {
      assert (a + b)[1..] == a[1..] + b;
      PrintSplit(a[1..], b);
      Associates(a[0].headerLines + PrintHunks(a[0].hunks), Print(a[1..]), Print(b));
    }
  }

  lemma PrintOne(f: PatchFile)
    ensures Print([f]) == f.headerLines + PrintHunks(f.hunks)
  {
    assert Print([f][1..]) == [];
  }

  lemma PrintFiles(r: Reading)
    requires r.Reading?
    ensures Print(Files(r)) == Print(r.done) + (r.current.headerLines + PrintHunks(r.current.hunks))
  {
    PrintSplit(r.done, [r.current]);
    PrintOne(r.current);
  }

  lemma SizeOfPrint(r: Reading)
    requires r.Reading?
    ensures Size(Print(Files(r))) ==
            Size(Print(r.done)) + Size(r.current.headerLines) + Size(PrintHunks(r.current.hunks))
  {
    PrintFiles(r);
    SizeSplit(Print(r.done), r.current.headerLines + PrintHunks(r.current.hunks));
    SizeSplit(r.current.headerLines, PrintHunks(r.current.hunks));
  }

  lemma SizeOfAddedHunk(r: Reading, h: PatchHunk)
    requires r.Reading?
    ensures Size(Print(Files(AddHunk(r, h)))) == Size(Print(Files(r))) + Size([h.header] + h.lines)
  {
    SizeOfPrint(r);
    SizeOfPrint(AddHunk(r, h));
    PrintHunksAdd(r.current.hunks, h);
    SizeSplit(PrintHunks(r.current.hunks), [h.header] + h.lines);
  }

  lemma SizeOfAddedLine(r: Reading, line: string)
    ensures Size(Print(Files(AddHeaderLine(r, line)))) == Size(Print(Files(r))) + |line|
  {
    SizeOfPrint(AddHeaderLine(r, line));
    assert Size([line]) == |line| + Size([line][1..]);
    if r.Reading? && AddHeaderLine(r, line).done == r.done {
      SizeOfPrint(r);
      SizeSplit(r.current.headerLines, [line]);
    }
  }

  /** The reader adds no text of its own. */
  lemma StepAddsNoText(ls: seq<string>, r: Reading)
    requires ls != [] && ParseStep(ls, r).Read?
    ensures var step := ParseStep(ls, r);
            Size(Print(Files(step.next))) <= Size(Print(Files(r))) + Size(ls[..step.count])
  {
    var n := ParseStep(ls, r).count;
    assert [ls[0]] + ls[1..n] == ls[..n];
    if StartsWith(ls[0], "@@") {
      SizeOfAddedHunk(r, PatchHunk(ls[0], ls[1..n]));
    } else {
      assert Size(ls[..1]) == |ls[0]| + Size(ls[..1][1..]);
      if !IsBlank(ls[0]) {
        SizeOfAddedLine(r, ls[0]);
      }
    }
  }

  lemma {:induction false} ReadAddsNoText(ls: seq<string>, r: Reading)
    requires ParseLines(ls, r).Some?
    ensures Size(Print(ParseLines(ls, r).value)) <= Size(Print(Files(r))) + Size(ls)
    decreases |ls|
  {
    if ls != [] {
      var step := ParseStep(ls, r);
      StepAddsNoText(ls, r);
      ReadAddsNoText(ls[step.count..], step.next);
      SizeCut(ls, step.count);
    }
  }

  predicate CrFree(ls: seq<string>) {
    forall l :: l in ls ==> !EndsWithCr(l)
  }

  lemma {:induction false} StrippingShrinks(ls: seq<string>)
    ensures Size(StripAll(ls)) <= Size(ls)
    ensures CrFree(ls) ==> StripAll(ls) == ls
    ensures !CrFree(ls) ==> Size(StripAll(ls)) < Size(ls)
  {
    if ls != [] {
      StrippingShrinks(ls[1..]);
      assert StripAll(ls)[0] == StripCr(ls[0]) && StripAll(ls)[1..] == StripAll(ls[1..]);
      assert ls == [ls[0]] + ls[1..];
    }
  }

  // ---------------------------------------------------------------- the theorem

  lemma {:induction false} PrintedHoldsNoNewline(files: seq<PatchFile>)
    requires AllWellFormed(files)
    ensures forall l :: l in Print(files) ==> '\n' !in l
  {
    if files != [] {
      PrintedHunksHoldNoNewline(files[0].hunks);
      PrintedHoldsNoNewline(files[1..]);
      assert Headed(files[0]);
      forall l | l in files[0].headerLines ensures '\n' !in l {
        assert HeaderLine(l);
      }
    }
  }

  lemma {:induction false} PrintedHunksHoldNoNewline(hunks: seq<PatchHunk>)
    requires AllCounted(hunks)
    ensures forall l :: l in PrintHunks(hunks) ==> '\n' !in l
  {
    if hunks != [] {
      assert Counted(hunks[0]);
      PrintedHunksHoldNoNewline(hunks[1..]);
    }
  }

  /** Reading printed sections gives them back exactly when no line ends in a carriage return and
      no section opens with a marker-like line behind a hunk that lacks a marker. */
  lemma ReadBackExactly(files: seq<PatchFile>)
    requires files != [] && AllWellFormed(files) && AllHaveHunks(files)
    ensures Parse(PrintText(files)) == Some(files) <==> Separable(files) && CrFree(Print(files))
  {
    var ls := Print(files);
    PrintedHoldsNoNewline(files);
    LinesOfUnlines(ls);
    StrippingShrinks(ls);
    if !CrFree(ls) {
      if Parse(PrintText(files)) == Some(files) {
        ReadAddsNoText(StripAll(ls), Start);
      }
    } else if Separable(files) {
      ReadSections(files, Start);
      assert [] + files == files;
    } else {
      ClashBreaks(files, Start);
      assert [] + files == files;
    }
  }
}
