/** Attached files as lines behind a message, and paths as file URIs
    (crates/agent-core/src/attachments.rs). */
module Attachments {
  import opened Common

  const PREFIX := "[Attached file \""
  const MIDDLE := "\" is saved at: "

  // ---------------------------------------------------------------- the name of a path

  /** Where the last component begins. */
  function LastStart(path: string): (at: nat)
    ensures at <= |path|
    ensures forall i :: at <= i < |path| ==> path[i] != '/'
    ensures at > 0 ==> path[at - 1] == '/'
  {
    if path == "" || path[|path| - 1] == '/' then |path| else LastStart(path[..|path| - 1])
  }

  /** `Path::file_name` on Unix: the last component that is not empty or `.`, unless it is `..`. */
  function LastNormal(path: string): (name: Option<string>)
    decreases |path|
  {
    var at := LastStart(path);
    var last := path[at..];
    if last == "" || last == "." then if at == 0 then None else LastNormal(path[..at - 1])
    else if last == ".." then None
    else Some(last)
  }

  function FileName(path: string): string {
    var name := LastNormal(path);
    if name.Some? then name.value else path
  }

  // ---------------------------------------------------------------- one line

  function FileLine(path: string): string {
    PREFIX + (FileName(path) + MIDDLE + path) + "]"
  }

  predicate MatchesAt(rest: string, at: nat) {
    at + |MIDDLE| <= |rest| && rest[at..at + |MIDDLE|] == MIDDLE
  }

  predicate Names(rest: string, at: nat)
    requires at + |MIDDLE| <= |rest|
  {
    rest[at + |MIDDLE|..] != "" && FileName(rest[at + |MIDDLE|..]) == rest[..at]
  }

  /** The first match of the separator, from `at` on and without overlap, that parts a path from its name. */
  function PathFrom(rest: string, at: nat): Option<string>
    decreases |rest| - at
  {
    if at + |MIDDLE| > |rest| then None
    else if !MatchesAt(rest, at) then PathFrom(rest, at + 1)
    else if Names(rest, at) then Some(rest[at + |MIDDLE|..])
    else PathFrom(rest, at + |MIDDLE|)
  }

  function Unwrapped(line: string): Option<string> {
    var trimmed := Trim(line);
    if !(PREFIX <= trimmed) then None
    else
      var rest := trimmed[|PREFIX|..];
      if rest == "" || rest[|rest| - 1] != ']' then None else Some(rest[..|rest| - 1])
  }

  function LinePath(line: string): Option<string> {
    match Unwrapped(line)
    case None => None
    case Some(rest) => PathFrom(rest, 0)
  }

  // ---------------------------------------------------------------- a message

  /** `split('\n')`. */
  function Split(text: string): (lines: seq<string>)
    ensures lines != []
  {
    var at := FindChar(text, '\n');
    if at == |text| then [text] else [text[..at]] + Split(text[at + 1..])
  }

  /** `join("\n")`. */
  function Join(lines: seq<string>): string {
    if lines == [] then ""
    else if |lines| == 1 then lines[0]
    else lines[0] + "\n" + Join(lines[1..])
  }

  function FileLines(files: seq<string>): (lines: seq<string>)
    ensures |lines| == |files|
  {
    seq(|files|, i requires 0 <= i < |files| => FileLine(files[i]))
  }

  function WithFiles(text: string, files: seq<string>): string {
    if files == [] then text
    else if text == "" then Join(FileLines(files))
    else text + "\n\n" + Join(FileLines(files))
  }

  /** How many lines at the end name a file. */
  function FileLinesAtEnd(lines: seq<string>): (n: nat)
    ensures n <= |lines|
    ensures forall i :: |lines| - n <= i < |lines| ==> LinePath(lines[i]).Some?
  {
    if lines == [] || LinePath(lines[|lines| - 1]).None? then 0 else 1 + FileLinesAtEnd(lines[..|lines| - 1])
  }

  function Paths(lines: seq<string>): (paths: seq<string>)
    requires forall i :: 0 <= i < |lines| ==> LinePath(lines[i]).Some?
    ensures |paths| == |lines|
  {
    seq(|lines|, i requires 0 <= i < |lines| => LinePath(lines[i]).value)
  }

  datatype Message = Message(text: string, files: seq<string>)

  function WithoutBlank(lines: seq<string>): seq<string> {
    if lines != [] && Trim(lines[|lines| - 1]) == "" then lines[..|lines| - 1] else lines
  }

  function SplitFiles(text: string): Message {
    var lines := Split(TrimEnd(text));
    var n := FileLinesAtEnd(lines);
    if n == 0 then Message(text, [])
    else Message(Join(WithoutBlank(lines[..|lines| - n])), Paths(lines[|lines| - n..]))
  }

  lemma LastIsFileLine(all: seq<string>, n: nat)
    requires 0 < n <= |all| && LinePath(all[n - 1]).Some?
    ensures FileLinesAtEnd(all[..n]) == 1 + FileLinesAtEnd(all[..n - 1]) && all[..n][..n - 1] == all[..n - 1]
  {
    assert all[..n][..n - 1] == all[..n - 1];
  }

  /** The last lines name these files, last first. */
  predicate NamesFromEnd(all: seq<string>, files: seq<string>) {
    |files| <= |all| && forall i :: 0 <= i < |files| ==> LinePath(all[|all| - 1 - i]) == Some(files[i])
  }

  lemma NamesOneMore(all: seq<string>, files: seq<string>, file: string)
    requires NamesFromEnd(all, files) && |files| < |all| && LinePath(all[|all| - 1 - |files|]) == Some(file)
    ensures NamesFromEnd(all, files + [file])
  {
  }

  /** Pops the file lines off the end; the paths come last first. */
  method PopFileLines(all: seq<string>) returns (lines: seq<string>, files: seq<string>)
    ensures NamesFromEnd(all, files)
    ensures |files| == FileLinesAtEnd(all) && lines == all[..|all| - |files|]
  {
    lines, files := all, [];
    ghost var n := |all|;
    assert all[..n] == all;
    while lines != [] && LinePath(lines[|lines| - 1]).Some?
      invariant 0 <= n <= |all| && lines == all[..n] && |files| == |all| - n
      invariant FileLinesAtEnd(all) == |files| + FileLinesAtEnd(all[..n])
      invariant NamesFromEnd(all, files)
      decreases n
    {
      LastIsFileLine(all, n);
      NamesOneMore(all, files, LinePath(lines[|lines| - 1]).value);
      files := files + [LinePath(lines[|lines| - 1]).value];
      lines, n := lines[..|lines| - 1], n - 1;
    }
  }

  method SplitFilesCall(text: string) returns (m: Message)
    ensures m == SplitFiles(text)
  {
    var all := Split(TrimEnd(text));
    var lines, files := PopFileLines(all);
    if files == [] {
      return Message(text, files);
    }
    var inOrder := Reversed(files);
    PathsInOrder(all, all[|all| - |files|..], files, inOrder);
    lines := PopBlank(lines);
    m := Message(Join(lines), inOrder);
  }

  method PopBlank(lines: seq<string>) returns (kept: seq<string>)
    ensures kept == WithoutBlank(lines)
  {
    kept := lines;
    if kept != [] && Trim(kept[|kept| - 1]) == "" {
      kept := kept[..|kept| - 1];
    }
  }

  lemma PathsInOrder(all: seq<string>, last: seq<string>, files: seq<string>, inOrder: seq<string>)
    requires |files| == |inOrder| == |last| <= |all| && last == all[|all| - |last|..]
    requires forall i :: 0 <= i < |files| ==> LinePath(all[|all| - 1 - i]) == Some(files[i])
    requires forall i :: 0 <= i < |files| ==> inOrder[i] == files[|files| - 1 - i]
    ensures forall i :: 0 <= i < |last| ==> LinePath(last[i]).Some?
    ensures Paths(last) == inOrder
  {
    var n := |files|;
    forall i | 0 <= i < n ensures LinePath(last[i]) == Some(inOrder[i]) {
      var k := n - 1 - i;
      assert LinePath(all[|all| - 1 - k]) == Some(files[k]) && inOrder[i] == files[k];
    }
    PathsAre(last, inOrder);
  }

  lemma PathsAre(lines: seq<string>, paths: seq<string>)
    requires |paths| == |lines| && forall i :: 0 <= i < |paths| ==> LinePath(lines[i]) == Some(paths[i])
    ensures Paths(lines) == paths
  {
  }

  method Reversed(files: seq<string>) returns (r: seq<string>)
    ensures |r| == |files| && forall i :: 0 <= i < |r| ==> r[i] == files[|files| - 1 - i]
  {
    r := [];
    var i := 0;
    while i < |files|
      invariant i <= |files| && |r| == i
      invariant forall k :: 0 <= k < i ==> r[k] == files[i - 1 - k]
    {
      r := [files[i]] + r;
      i := i + 1;
    }
  }
}
