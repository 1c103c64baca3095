/** What the attachment lines promise: a message with files is taken apart into exactly its text and its
    files, whatever their names. */
module AttachmentTheorems {
  import opened Common
  import opened Attachments

  // ---------------------------------------------------------------- the separator

  /** The separator cannot overlap itself: it has one quote, its first character. */
  lemma NoOverlap(rest: string, i: nat, j: nat)
    requires MatchesAt(rest, i) && MatchesAt(rest, j) && i < j
    ensures i + |MIDDLE| <= j
  {
    assert forall k :: 0 < k < |MIDDLE| ==> MIDDLE[k] != '\"';
    assert forall k :: i < k < i + |MIDDLE| ==> rest[k] == rest[i..i + |MIDDLE|][k - i] == MIDDLE[k - i] != '\"';
    assert rest[j] == rest[j..j + |MIDDLE|][0] == MIDDLE[0] == '\"';
  }

  /** The first match that names its own path is found. */
  lemma {:induction false} FindsFirst(rest: string, at: nat, end: nat)
    requires at <= end && MatchesAt(rest, end) && Names(rest, end)
    requires forall i :: at <= i < end && MatchesAt(rest, i) ==> !Names(rest, i)
    ensures PathFrom(rest, at) == Some(rest[end + |MIDDLE|..])
    decreases end - at
  {
    if at < end {
      if MatchesAt(rest, at) {
        NoOverlap(rest, at, end);
        FindsFirst(rest, at + |MIDDLE|, end);
      } else {
        FindsFirst(rest, at + 1, end);
      }
    }
  }

  // ---------------------------------------------------------------- names behind a prefix

  lemma {:induction false} LastStartBehind(x: string, p: string)
    ensures LastStart(x + p) == if LastStart(p) > 0 then |x| + LastStart(p) else LastStart(x)
    decreases |p|
  {
    if p == "" {
      assert x + p == x;
    } else if p[|p| - 1] != '/' {
      assert (x + p)[..|x + p| - 1] == x + p[..|p| - 1];
      LastStartBehind(x, p[..|p| - 1]);
    }
  }

  /** In front of a path with a name, the name only grows; in front of one without, there is still none,
      if it has a quote. */
  lemma {:induction false} NameBehind(x: string, p: string)
    ensures LastNormal(p).Some? ==> LastNormal(x + p).Some? && |LastNormal(x + p).value| >= |LastNormal(p).value|
    ensures LastNormal(p).None? && '\"' in p ==> LastNormal(x + p).None?
    decreases |p|
  {
    var at := LastStart(p);
    if at > 0 {
      SameComponent(x, p);
      if p[at..] in {"", "."} {
        QuoteBefore(p, at);
        NameBehind(x, p[..at - 1]);
      }
    } else if p != "" && p != "." && p != ".." {
      LongerIsNormal(x, p);
    }
  }

  /** With a slash in it, the path behind the prefix ends as it ended alone. */
  lemma SameComponent(x: string, p: string)
    requires LastStart(p) > 0
    ensures var at := LastStart(p);
            if p[at..] in {"", "."}
            then LastNormal(x + p) == LastNormal(x + p[..at - 1]) && LastNormal(p) == LastNormal(p[..at - 1])
            else LastNormal(x + p) == LastNormal(p)
  {
    ComponentBehind(x, p, LastStart(p));
  }

  lemma ComponentBehind(x: string, p: string, at: nat)
    requires at == LastStart(p) > 0
    ensures LastStart(x + p) == |x| + at
    ensures (x + p)[|x| + at..] == p[at..] && (x + p)[..|x| + at - 1] == x + p[..at - 1]
  {
    LastStartBehind(x, p);
  }

  lemma QuoteBefore(p: string, at: nat)
    requires 0 < at <= |p| && p[at - 1] == '/' && p[at..] in {"", "."}
    ensures '\"' in p ==> '\"' in p[..at - 1]
  {
    assert p == p[..at - 1] + "/" + p[at..];
  }

  lemma LongerIsNormal(x: string, p: string)
    requires LastStart(p) == 0 && p != "" && p != "." && p != ".."
    ensures LastNormal(x + p).Some? && |LastNormal(x + p).value| >= |p|
  {
    LastStartBehind(x, p);
    var last := (x + p)[LastStart(x)..];
    assert last[|last| - |p|..] == p;
  }

  // ---------------------------------------------------------------- one line

  /** No earlier occurrence of the separator parts a path from its own name. */
  lemma EarlierNamesNothing(p: string, at: nat)
    requires at < |FileName(p)| && MatchesAt(FileName(p) + MIDDLE + p, at)
    ensures !Names(FileName(p) + MIDDLE + p, at)
  {
    var name := FileName(p);
    var x := BehindEarlier(name, p, at);
    if LastNormal(p).None? {
      assert (name + MIDDLE + p)[at..at + |MIDDLE|][0] == '\"' == p[at];
    }
    NameBehind(x, p);
  }

  /** Behind an earlier match the whole path follows, and something before it. */
  lemma BehindEarlier(name: string, p: string, at: nat) returns (x: string)
    requires at < |name| && MatchesAt(name + MIDDLE + p, at)
    ensures (name + MIDDLE + p)[at + |MIDDLE|..] == x + p
    ensures (name + MIDDLE + p)[..at] == name[..at] && at + |MIDDLE| <= |name|
  {
    var rest := name + MIDDLE + p;
    assert MatchesAt(rest, |name|);
    NoOverlap(rest, at, |name|);
    x := name[at + |MIDDLE|..] + MIDDLE;
  }

  lemma {:induction false} TrimKeepsEnds(s: string)
    requires s != "" && !IsWhitespace(s[0]) && !IsWhitespace(s[|s| - 1])
    ensures Trim(s) == s && TrimEnd(s) == s
  {
  }

  lemma UnwrapsLine(p: string)
    ensures Unwrapped(FileLine(p)) == Some(FileName(p) + MIDDLE + p)
  {
    var rest := FileName(p) + MIDDLE + p;
    var line := FileLine(p);
    assert line[0] == '[' && line[|line| - 1] == ']';
    TrimKeepsEnds(line);
    assert line[|PREFIX|..] == rest + "]";
    assert (rest + "]")[..|rest|] == rest;
  }

  /** The line of a file names it back, whatever separators and quotes its name holds. */
  lemma LineReadsBack(p: string)
    requires p != ""
    ensures LinePath(FileLine(p)) == Some(p)
  {
    var name := FileName(p);
    var rest := name + MIDDLE + p;
    UnwrapsLine(p);
    assert rest[|name| + |MIDDLE|..] == p && rest[..|name|] == name && MatchesAt(rest, |name|);
    forall i | 0 <= i < |name| && MatchesAt(rest, i) ensures !Names(rest, i) {
      EarlierNamesNothing(p, i);
    }
    FindsFirst(rest, 0, |name|);
  }

  // ---------------------------------------------------------------- lines and texts

  predicate OneLine(s: string) {
    '\n' !in s
  }

  lemma SplitLine(line: string)
    requires OneLine(line)
    ensures Split(line) == [line] && FindChar(line, '\n') == |line|
  {
    assert forall i :: 0 <= i < |line| ==> line[i] in line;
  }

  lemma SplitFirst(first: string, rest: string)
    requires OneLine(first)
    ensures Split(first + "\n" + rest) == [first] + Split(rest)
  {
    var whole := first + "\n" + rest;
    FindCharAfter(first, '\n', rest);
    assert whole[..|first|] == first && whole[|first| + 1..] == rest;
  }

  lemma FirstLine(a: string) returns (first: string, rest: string)
    requires FindChar(a, '\n') < |a|
    ensures a == first + "\n" + rest && OneLine(first)
  {
    var at := FindChar(a, '\n');
    first, rest := a[..at], a[at + 1..];
  }

  lemma SplitBehind(first: string, rest: string, b: string)
    requires OneLine(first) && Split(rest + "\n" + b) == Split(rest) + Split(b)
    ensures Split(first + "\n" + rest + "\n" + b) == Split(first + "\n" + rest) + Split(b)
  {
    Regroups(first, rest, b);
    SplitFirst(first, rest + "\n" + b);
    SplitFirst(first, rest);
    Prepends(first, Split(rest), Split(b));
  }

  lemma Regroups(a: string, b: string, c: string)
    ensures a + "\n" + b + "\n" + c == a + "\n" + (b + "\n" + c)
  {
  }

  lemma Prepends(first: string, a: seq<string>, b: seq<string>)
    ensures [first] + (a + b) == [first] + a + b
  {
  }

  lemma {:induction false} SplitAt(a: string, b: string)
    ensures Split(a + "\n" + b) == Split(a) + Split(b)
    decreases |a|
  {
    if FindChar(a, '\n') == |a| {
      assert a[..|a|] == a;
      SplitFirst(a, b);
    } else {
      var first, rest := FirstLine(a);
      SplitAt(rest, b);
      SplitBehind(first, rest, b);
    }
  }

  lemma {:induction false} SplitJoin(lines: seq<string>)
    requires lines != [] && forall i :: 0 <= i < |lines| ==> OneLine(lines[i])
    ensures Split(Join(lines)) == lines
  {
    SplitLine(lines[0]);
    if |lines| > 1 {
      SplitAt(lines[0], Join(lines[1..]));
      SplitJoin(lines[1..]);
      assert [lines[0]] + lines[1..] == lines;
    }
  }

  lemma JoinFirst(first: string, rest: seq<string>)
    requires rest != []
    ensures Join([first] + rest) == first + "\n" + Join(rest)
  {
    assert ([first] + rest)[1..] == rest;
  }

  lemma {:induction false} JoinSplit(text: string)
    ensures Join(Split(text)) == text
    decreases |text|
  {
    if FindChar(text, '\n') < |text| {
      var first, rest := FirstLine(text);
      JoinSplit(rest);
      SplitFirst(first, rest);
      JoinFirst(first, Split(rest));
    }
  }

  lemma {:induction false} SplitLinesAreLines(text: string)
    ensures forall i :: 0 <= i < |Split(text)| ==> OneLine(Split(text)[i])
    decreases |text|
  {
    var at := FindChar(text, '\n');
    if at == |text| {
      assert text[..at] == text;
    } else {
      SplitLinesAreLines(text[at + 1..]);
    }
  }

  lemma {:induction false} JoinEnds(lines: seq<string>)
    requires lines != [] && forall i :: 0 <= i < |lines| ==> lines[i] != "" && lines[i][|lines[i]| - 1] == ']'
    ensures Join(lines) != "" && Join(lines)[|Join(lines)| - 1] == ']'
  {
    if |lines| > 1 {
      JoinEnds(lines[1..]);
    }
  }

  lemma {:induction false} TrimEndKeeps(s: string)
    requires s != "" && s[|s| - 1] == ']'
    ensures TrimEnd(s) == s
  {
  }

  // ---------------------------------------------------------------- the files at the end

  lemma {:induction false} CountsFileLines(before: seq<string>, lines: seq<string>)
    requires forall i :: 0 <= i < |lines| ==> LinePath(lines[i]).Some?
    requires before == [] || LinePath(before[|before| - 1]).None?
    ensures FileLinesAtEnd(before + lines) == |lines|
    decreases |lines|
  {
    if lines == [] {
      assert before + lines == before;
    } else {
      assert (before + lines)[..|before + lines| - 1] == before + lines[..|lines| - 1];
      CountsFileLines(before, lines[..|lines| - 1]);
    }
  }

  lemma {:induction false} PathIsSuffix(rest: string, at: nat, path: string)
    requires PathFrom(rest, at) == Some(path)
    ensures path != "" && |path| <= |rest| && rest[|rest| - |path|..] == path
    decreases |rest| - at
  {
    if MatchesAt(rest, at) {
      if !Names(rest, at) {
        PathIsSuffix(rest, at + |MIDDLE|, path);
      }
    } else {
      PathIsSuffix(rest, at + 1, path);
    }
  }

  lemma {:induction false} TrimKeepsOneLine(s: string)
    requires OneLine(s)
    ensures OneLine(TrimStart(s)) && OneLine(TrimEnd(s))
    decreases |s|
  {
    if s != "" {
      TrimKeepsOneLine(s[1..]);
      TrimKeepsOneLine(s[..|s| - 1]);
    }
  }

  /** What a line names is not empty and is on that line. */
  lemma LineNamesOneLine(line: string)
    requires OneLine(line) && LinePath(line).Some?
    ensures LinePath(line).value != "" && OneLine(LinePath(line).value)
  {
    TrimKeepsOneLine(line);
    TrimKeepsOneLine(TrimStart(line));
    var rest := Unwrapped(line).value;
    PathIsSuffix(rest, 0, LinePath(line).value);
  }

  // ---------------------------------------------------------------- the round trip

  predicate Attachable(files: seq<string>) {
    forall i :: 0 <= i < |files| ==> files[i] != "" && OneLine(files[i])
  }

  lemma {:induction false} NameIsOneLine(path: string)
    requires OneLine(path)
    ensures OneLine(FileName(path))
  {
    NormalIsPart(path);
  }

  lemma {:induction false} NormalIsPart(path: string)
    requires OneLine(path)
    ensures LastNormal(path).Some? ==> OneLine(LastNormal(path).value)
    decreases |path|
  {
    var at := LastStart(path);
    if at > 0 {
      NormalIsPart(path[..at - 1]);
    }
  }

  lemma FileLinesAreLines(files: seq<string>)
    requires Attachable(files)
    ensures forall i :: 0 <= i < |files| ==> OneLine(FileLines(files)[i]) && LinePath(FileLines(files)[i]) == Some(files[i])
    ensures forall i :: 0 <= i < |files| ==> FileLines(files)[i] != "" && FileLines(files)[i][|FileLines(files)[i]| - 1] == ']'
  {
    forall i | 0 <= i < |files|
      ensures OneLine(FileLine(files[i])) && LinePath(FileLine(files[i])) == Some(files[i])
    {
      NameIsOneLine(files[i]);
      LineReadsBack(files[i]);
    }
  }

  lemma LinesBehindText(text: string, lines: seq<string>)
    requires lines != [] && forall i :: 0 <= i < |lines| ==> OneLine(lines[i])
    ensures Split(text + "\n\n" + Join(lines)) == Split(text) + [""] + lines
  {
    SplitJoin(lines);
    BlankLine(text, Join(lines));
    SplitAt(text, "" + "\n" + Join(lines));
    SplitFirst("", Join(lines));
    PutsBetween(Split(text), "", lines);
  }

  lemma BlankLine(text: string, rest: string)
    ensures text + "\n\n" + rest == text + "\n" + ("" + "\n" + rest)
  {
  }

  lemma PutsBetween(a: seq<string>, line: string, b: seq<string>)
    ensures a + ([line] + b) == a + [line] + b
  {
  }

  /** The lines of a message with files: the text's, a blank one, and the files'. */
  lemma LinesOfMessage(text: string, files: seq<string>)
    requires files != [] && Attachable(files)
    ensures var whole := WithFiles(text, files);
            && TrimEnd(whole) == whole
            && Split(whole) == (if text == "" then [] else Split(text) + [""]) + FileLines(files)
  {
    var lines := FileLines(files);
    FileLinesAreLines(files);
    JoinEnds(lines);
    TrimEndKeeps(WithFiles(text, files));
    if text == "" {
      SplitJoin(lines);
      assert [] + lines == lines;
    } else {
      LinesBehindText(text, lines);
    }
  }

  lemma BlankNamesNothing()
    ensures LinePath("").None? && Trim("") == ""
  {
  }

  lemma SplitsMessage(text: string, files: seq<string>)
    requires files != [] && Attachable(files)
    ensures SplitFiles(WithFiles(text, files)) == Message(text, files)
  {
    var lines := FileLines(files);
    var before := if text == "" then [] else Split(text) + [""];
    LinesOfMessage(text, files);
    FileLinesAreLines(files);
    BlankNamesNothing();
    CountsFileLines(before, lines);
    var all := before + lines;
    assert all[..|all| - |lines|] == before && all[|all| - |lines|..] == lines;
    PathsAre(lines, files);
    KeepsText(text, before);
  }

  lemma KeepsText(text: string, before: seq<string>)
    requires before == if text == "" then [] else Split(text) + [""]
    ensures Join(WithoutBlank(before)) == text
  {
    BlankNamesNothing();
    if text != "" {
      JoinSplit(text);
      assert WithoutBlank(before) == Split(text);
    }
  }

  lemma SplitsOnlyAttachable(text: string)
    ensures Attachable(SplitFiles(text).files)
  {
    var lines := Split(TrimEnd(text));
    SplitLinesAreLines(TrimEnd(text));
    PathsAreAttachable(lines[|lines| - FileLinesAtEnd(lines)..]);
  }

  lemma PathsAreAttachable(lines: seq<string>)
    requires forall i :: 0 <= i < |lines| ==> LinePath(lines[i]).Some?
    requires forall i :: 0 <= i < |lines| ==> OneLine(lines[i])
    ensures Attachable(Paths(lines))
  {
    forall i | 0 <= i < |lines| ensures Paths(lines)[i] != "" && OneLine(Paths(lines)[i]) {
      LineNamesOneLine(lines[i]);
    }
  }

  /** A message with files comes apart into its text and its files exactly when no path is empty or
      holds a line break: names may hold quotes, brackets and the separator itself. */
  lemma MessageComesApartExactly(text: string, files: seq<string>)
    requires files != []
    ensures SplitFiles(WithFiles(text, files)) == Message(text, files) <==> Attachable(files)
  {
    if Attachable(files) {
      SplitsMessage(text, files);
    }
    SplitsOnlyAttachable(WithFiles(text, files));
  }

  lemma FilesAtEndIff(lines: seq<string>)
    requires lines != []
    ensures FileLinesAtEnd(lines) == 0 <==> LinePath(lines[|lines| - 1]).None?
  {
  }

  lemma FilesAreNamed(text: string)
    ensures |SplitFiles(text).files| == FileLinesAtEnd(Split(TrimEnd(text)))
    ensures |SplitFiles(text).files| == 0 ==> SplitFiles(text) == Message(text, [])
  {
  }

  /** A message without files is taken for one with files exactly when its last line is a file line. */
  lemma PlainTextIsKeptExactly(text: string)
    ensures SplitFiles(WithFiles(text, [])) == Message(text, []) <==>
            LinePath(Split(TrimEnd(text))[|Split(TrimEnd(text))| - 1]).None?
  {
    var lines := Split(TrimEnd(text));
    FilesAtEndIff(lines);
    FilesAreNamed(text);
  }

  // ---------------------------------------------------------------- the name of a path

  predicate IsComponent(name: string) {
    forall i :: 0 <= i < |name| ==> name[i] != '/'
  }

  lemma ComponentStarts(dir: string, name: string)
    requires IsComponent(name)
    ensures LastStart(dir + "/" + name) == |dir| + 1 && LastStart(name) == 0
  {
    var path := dir + "/" + name;
    assert path[|dir|] == '/';
    assert forall i :: |dir| < i < |path| ==> path[i] == name[i - |dir| - 1];
  }

  /** The name of a path is its last component; empty ones and `.` are passed over, and `..` has no name. */
  lemma NameIsLastComponent(dir: string, name: string)
    requires IsComponent(name)
    ensures LastNormal(dir + "/" + name) ==
            if name == "" || name == "." then LastNormal(dir) else if name == ".." then None else Some(name)
    ensures LastNormal(name) == if name == "" || name == "." || name == ".." then None else Some(name)
  {
    var path := dir + "/" + name;
    ComponentStarts(dir, name);
    assert path[|dir| + 1..] == name && path[..|dir|] == dir;
    assert name[0..] == name;
  }
}
