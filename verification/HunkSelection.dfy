/** Approving some hunks of an edit call (crates/agent-core/src/hunks.rs): the ids a plan shows, the
    call rewritten to the approved ids, and what survives the rewriting. */
module HunkSelection {
  import opened Common
  import opened PatchFormat
  import opened PatchRoundTrip

  datatype HunkView = HunkView(id: string, file: string, header: string, lines: seq<string>)

  /** The parts of a call's JSON arguments the engine reads; `edits` are kept as raw JSON values. */
  datatype Arguments = Malformed | Arguments(patch: Option<string>, edits: Option<seq<string>>, other: string)

  datatype FilteredEdit = FilteredEdit(arguments: Arguments, applied: seq<string>, rejected: seq<string>)

  function HunkId(fileIndex: nat, hunkNumber: nat): string {
    "f" + Decimal(fileIndex) + "h" + Decimal(hunkNumber)
  }

  // ---------------------------------------------------------------- the specification

  /** The ids of `count` hunks of one file, from `number` on. */
  function HunkIds(fileIndex: nat, number: nat, count: nat): (ids: seq<string>) {
    seq(count, i requires 0 <= i < count => HunkId(fileIndex, number + i))
  }

  /** The ids of the hunks of `files`, the first of which has index `fileIndex`. */
  function Ids(files: seq<PatchFile>, fileIndex: nat): seq<string> {
    if files == [] then [] else HunkIds(fileIndex, 1, |files[0].hunks|) + Ids(files[1..], fileIndex + 1)
  }

  /** The items whose id passes, in order. */
  function Select<T>(items: seq<T>, ids: seq<string>, keep: string -> bool): seq<T>
    requires |items| == |ids|
  {
    if items == [] then []
    else (if keep(ids[0]) then [items[0]] else []) + Select(items[1..], ids[1..], keep)
  }

  function Among(approved: set<string>): string -> bool {
    id => id in approved
  }

  function NotAmong(approved: set<string>): string -> bool {
    id => id !in approved
  }

  function KeptHunks(f: PatchFile, fileIndex: nat, approved: set<string>): seq<PatchHunk> {
    Select(f.hunks, HunkIds(fileIndex, 1, |f.hunks|), Among(approved))
  }

  /** The sections with their approved hunks only; a section left without hunks is dropped. */
  function Restrict(files: seq<PatchFile>, fileIndex: nat, approved: set<string>): seq<PatchFile> {
    if files == [] then []
    else
      var kept := KeptHunks(files[0], fileIndex, approved);
      (if kept == [] then [] else [files[0].(hunks := kept)]) + Restrict(files[1..], fileIndex + 1, approved)
  }

  /** `check_known_ids`. */
  predicate AllKnown(approved: set<string>, known: seq<string>) {
    forall id :: id in approved ==> id in known
  }

  function FilterPatch(patch: Option<string>, approved: set<string>): Result<(string, seq<string>, seq<string>)> {
    match patch
    case None => Err("call has no patch")
    case Some(text) =>
      match Parse(text)
      case None => Err("could not split the patch into hunks")
      case Some(files) =>
        var ids := Ids(files, 0);
        if !AllKnown(approved, ids) then Err("unknown hunk id")
        else
          Ok((Filtered(files, approved), Applied(files, approved), Rejected(files, approved)))
  }

  // ---------------------------------------------------------------- the engine's code

  /** One step of a filtering loop. */
  lemma SelectPush<T>(items: seq<T>, ids: seq<string>, i: nat, keep: string -> bool)
    requires i < |items| == |ids|
    ensures Select(items[..i + 1], ids[..i + 1], keep) ==
            Select(items[..i], ids[..i], keep) + if keep(ids[i]) then [items[i]] else []
  {
    SelectSplit(items[..i], [items[i]], ids[..i], [ids[i]], keep);
    assert items[..i + 1] == items[..i] + [items[i]] && ids[..i + 1] == ids[..i] + [ids[i]];
    assert [items[i]][1..] == [] && [ids[i]][1..] == [];
  }

  /** The loop both filters share: the kept items, and the ids by verdict. */
  method FilterItems<T>(items: seq<T>, ids: seq<string>, approved: set<string>)
    returns (kept: seq<T>, applied: seq<string>, rejected: seq<string>)
    requires |items| == |ids|
    ensures kept == Select(items, ids, Among(approved))
    ensures applied == Select(ids, ids, Among(approved)) && rejected == Select(ids, ids, NotAmong(approved))
  {
    kept, applied, rejected := [], [], [];
    var i := 0;
    while i < |items|
      invariant 0 <= i <= |items|
      invariant kept == Select(items[..i], ids[..i], Among(approved))
      invariant applied == Select(ids[..i], ids[..i], Among(approved))
      invariant rejected == Select(ids[..i], ids[..i], NotAmong(approved))
    {
      SelectPush(items, ids, i, Among(approved));
      SelectPush(ids, ids, i, Among(approved));
      SelectPush(ids, ids, i, NotAmong(approved));
      if ids[i] in approved {
        kept, applied := kept + [items[i]], applied + [ids[i]];
      } else {
        rejected := rejected + [ids[i]];
      }
      i := i + 1;
    }
    assert items[..i] == items && ids[..i] == ids;
  }

  method PrintLines(lines: seq<string>) returns (text: string)
    ensures text == Unlines(lines)
  {
    text := "";
    for i := 0 to |lines|
      invariant text == Unlines(lines[..i])
    {
      UnlinesSplit(lines[..i], [lines[i]]);
      assert lines[..i + 1] == lines[..i] + [lines[i]];
      UnlinesOne(lines[i]);
      text := text + lines[i] + "\n";
    }
    assert lines[..|lines|] == lines;
  }

  function PrintedUpTo(hunks: seq<PatchHunk>, i: nat): string
    requires i <= |hunks|
  {
    Unlines(PrintHunks(hunks[..i]))
  }

  lemma PrintPush(hunks: seq<PatchHunk>, i: nat)
    requires i < |hunks|
    ensures PrintedUpTo(hunks, i + 1) ==
            PrintedUpTo(hunks, i) + (hunks[i].header + "\n" + Unlines(hunks[i].lines))
  {
    var h := hunks[i];
    PrintHunksAdd(hunks[..i], h);
    assert hunks[..i + 1] == hunks[..i] + [h];
    UnlinesSplit(PrintHunks(hunks[..i]), [h.header] + h.lines);
    assert ([h.header] + h.lines)[1..] == h.lines;
  }

  method PrintSection(f: PatchFile, kept: seq<PatchHunk>) returns (text: string)
    ensures text == Unlines(f.headerLines + PrintHunks(kept))
  {
    text := PrintLines(f.headerLines);
    ghost var head := text;
    var i := 0;
    while i < |kept|
      invariant i <= |kept| && text == head + PrintedUpTo(kept, i)
    {
      var body := PrintLines(kept[i].lines);
      PrintPush(kept, i);
      Associates(head, PrintedUpTo(kept, i), kept[i].header + "\n" + body);
      text := text + (kept[i].header + "\n" + body);
      i := i + 1;
    }
    assert kept[..|kept|] == kept;
    UnlinesSplit(f.headerLines, PrintHunks(kept));
  }

  lemma {:induction false} IdsSplit(a: seq<PatchFile>, b: seq<PatchFile>, fileIndex: nat)
    ensures Ids(a + b, fileIndex) == Ids(a, fileIndex) + Ids(b, fileIndex + |a|)
  {
    if a == [] {
      assert a + b == b;
    } else {
      assert (a + b)[1..] == a[1..] + b;
      IdsSplit(a[1..], b, fileIndex + 1);
      Associates(HunkIds(fileIndex, 1, |a[0].hunks|), Ids(a[1..], fileIndex + 1), Ids(b, fileIndex + |a|));
    }
  }

  lemma {:induction false} RestrictSplit(a: seq<PatchFile>, b: seq<PatchFile>, fileIndex: nat, approved: set<string>)
    ensures Restrict(a + b, fileIndex, approved) ==
            Restrict(a, fileIndex, approved) + Restrict(b, fileIndex + |a|, approved)
  {
    if a == [] {
      assert a + b == b;
    } else {
      assert (a + b)[1..] == a[1..] + b;
      RestrictSplit(a[1..], b, fileIndex + 1, approved);
      var kept := KeptHunks(a[0], fileIndex, approved);
      Associates(if kept == [] then [] else [a[0].(hunks := kept)],
                 Restrict(a[1..], fileIndex + 1, approved), Restrict(b, fileIndex + |a|, approved));
    }
  }

  function Applied(files: seq<PatchFile>, approved: set<string>): seq<string> {
    Select(Ids(files, 0), Ids(files, 0), Among(approved))
  }

  function Rejected(files: seq<PatchFile>, approved: set<string>): seq<string> {
    Select(Ids(files, 0), Ids(files, 0), NotAmong(approved))
  }

  function Filtered(files: seq<PatchFile>, approved: set<string>): string {
    PrintText(Restrict(files, 0, approved))
  }

  lemma IdsPush(files: seq<PatchFile>, i: nat, approved: set<string>)
    requires i < |files|
    ensures var ids := HunkIds(i, 1, |files[i].hunks|);
            && Applied(files[..i + 1], approved) == Applied(files[..i], approved) + Select(ids, ids, Among(approved))
            && Rejected(files[..i + 1], approved) == Rejected(files[..i], approved) + Select(ids, ids, NotAmong(approved))
  {
    var before, ids := Ids(files[..i], 0), HunkIds(i, 1, |files[i].hunks|);
    assert files[..i + 1] == files[..i] + [files[i]];
    IdsSplit(files[..i], [files[i]], 0);
    assert Ids([files[i]], i) == ids + Ids([files[i]][1..], i + 1) == ids;
    SelectSplit(before, ids, before, ids, Among(approved));
    SelectSplit(before, ids, before, ids, NotAmong(approved));
  }

  lemma TextPush(files: seq<PatchFile>, i: nat, approved: set<string>)
    requires i < |files|
    ensures var kept := KeptHunks(files[i], i, approved);
            Filtered(files[..i + 1], approved) ==
            Filtered(files[..i], approved) +
            if kept == [] then "" else Unlines(files[i].headerLines + PrintHunks(kept))
  {
    var f := files[i];
    var kept, before := KeptHunks(f, i, approved), Restrict(files[..i], 0, approved);
    var one := if kept == [] then [] else [f.(hunks := kept)];
    assert files[..i + 1] == files[..i] + [f];
    RestrictSplit(files[..i], [f], 0, approved);
    assert Restrict([f], i, approved) == one + Restrict([], i + 1, approved) == one;
    PrintSplit(before, one);
    UnlinesSplit(Print(before), Print(one));
    PrintOne(f.(hunks := kept));
  }

  /** The loop over the sections of `filter_patch_call`. */
  method FilterSections(files: seq<PatchFile>, approved: set<string>)
    returns (filtered: string, applied: seq<string>, rejected: seq<string>)
    ensures filtered == Filtered(files, approved)
    ensures applied == Applied(files, approved) && rejected == Rejected(files, approved)
  {
    filtered, applied, rejected := "", [], [];
    var fileIndex := 0;
    while fileIndex < |files|
      invariant 0 <= fileIndex <= |files|
      invariant filtered == Filtered(files[..fileIndex], approved)
      invariant applied == Applied(files[..fileIndex], approved)
      invariant rejected == Rejected(files[..fileIndex], approved)
    {
      var f := files[fileIndex];
      IdsPush(files, fileIndex, approved);
      TextPush(files, fileIndex, approved);
      var kept, yes, no := FilterItems(f.hunks, HunkIds(fileIndex, 1, |f.hunks|), approved);
      applied, rejected := applied + yes, rejected + no;
      if kept != [] {
        var section := PrintSection(f, kept);
        filtered := filtered + section;
      }
      fileIndex := fileIndex + 1;
    }
    assert files[..fileIndex] == files;
  }

  method FilterPatchCall(patch: Option<string>, approved: set<string>)
    returns (r: Result<(string, seq<string>, seq<string>)>)
    ensures r == FilterPatch(patch, approved)
  {
    if patch.None? {
      return Err("call has no patch");
    }
    var files := ParsePatch(patch.value);
    if files.None? {
      return Err("could not split the patch into hunks");
    }
    if !AllKnown(approved, Ids(files.value, 0)) {
      return Err("unknown hunk id");
    }
    var filtered, applied, rejected := FilterSections(files.value, approved);
    return Ok((filtered, applied, rejected));
  }

  function EditsFiltered(args: Arguments, approved: set<string>): Result<FilteredEdit> {
    if args.Malformed? then Err("invalid JSON arguments")
    else if args.edits.None? then Err("call has no edits array")
    else
      var edits, ids := args.edits.value, HunkIds(0, 1, |args.edits.value|);
      if !AllKnown(approved, ids) then Err("unknown hunk id")
      else
        Ok(FilteredEdit(args.(edits := Some(Select(edits, ids, Among(approved)))),
                        Select(ids, ids, Among(approved)), Select(ids, ids, NotAmong(approved))))
  }

  function PatchFiltered(args: Arguments, approved: set<string>): Result<FilteredEdit> {
    if args.Malformed? then Err("invalid JSON arguments")
    else
      match FilterPatch(args.patch, approved)
      case Err(error) => Err(error)
      case Ok((text, applied, rejected)) =>
        Ok(FilteredEdit(args.(patch := Some(text)), applied, rejected))
  }

  /** What `filter_edit_call` answers. */
  function EditFiltered(name: string, args: Arguments, approved: set<string>): Result<FilteredEdit> {
    if approved == {} then Err("no hunks were approved; deny the call instead")
    else if name == "write" then
      if AllKnown(approved, [HunkId(0, 1)]) then Ok(FilteredEdit(args, [HunkId(0, 1)], []))
      else Err("unknown hunk id")
    else if name == "str_replace" || name == "edit" || name == "hashline_edit" then EditsFiltered(args, approved)
    else if name == "apply_patch" then PatchFiltered(args, approved)
    else Err("tool does not support hunk selection")
  }

  method FilterEditCall(name: string, args: Arguments, approved: set<string>) returns (r: Result<FilteredEdit>)
    ensures r == EditFiltered(name, args, approved)
  {
    if approved == {} {
      return Err("no hunks were approved; deny the call instead");
    }
    match name {
      case "write" =>
        var only := HunkId(0, 1);
        return if AllKnown(approved, [only]) then Ok(FilteredEdit(args, [only], [])) else Err("unknown hunk id");
      case "apply_patch" =>
        if args.Malformed? {
          return Err("invalid JSON arguments");
        }
        var filtered := FilterPatchCall(args.patch, approved);
        if filtered.Err? {
          return Err(filtered.error);
        }
        var (text, applied, rejected) := filtered.value;
        return Ok(FilteredEdit(args.(patch := Some(text)), applied, rejected));
      case _ =>
        if name !in ["str_replace", "edit", "hashline_edit"] {
          return Err("tool does not support hunk selection");
        }
        if args.Malformed? {
          return Err("invalid JSON arguments");
        }
        if args.edits.None? {
          return Err("call has no edits array");
        }
        var edits := args.edits.value;
        var ids := HunkIds(0, 1, |edits|);
        if !AllKnown(approved, ids) {
          return Err("unknown hunk id");
        }
        var kept, applied, rejected := FilterItems(edits, ids, approved);
        return Ok(FilteredEdit(args.(edits := Some(kept)), applied, rejected));
    }
  }

  // ---------------------------------------------------------------- what the plan shows

  function FileViews(f: PatchFile, fileIndex: nat): (views: seq<HunkView>)
    ensures |views| == |f.hunks|
  {
    seq(|f.hunks|, i requires 0 <= i < |f.hunks| =>
      HunkView(HunkId(fileIndex, i + 1), f.fileLabel, f.hunks[i].header, f.hunks[i].lines))
  }

  function Views(files: seq<PatchFile>, fileIndex: nat): seq<HunkView> {
    if files == [] then [] else FileViews(files[0], fileIndex) + Views(files[1..], fileIndex + 1)
  }

  /** `plan_apply_patch`. */
  function PlanApplyPatch(patch: string): Option<seq<HunkView>> {
    match Parse(patch)
    case None => None
    case Some(files) => Some(Views(files, 0))
  }

  /** `plan_str_replace` and `plan_hashline_edit`: one view per edit, and no plan at all when an edit
      has no preview (`previews` is what diffing each edit in isolation gave). */
  function PlanEdits(previews: seq<Option<(string, PatchHunk)>>): Option<seq<HunkView>> {
    if previews == [] || exists i :: 0 <= i < |previews| && previews[i].None? then None
    else
      Some(seq(|previews|, i requires 0 <= i < |previews| =>
        var (file, hunk) := previews[i].value; HunkView(HunkId(0, i + 1), file, hunk.header, hunk.lines)))
  }

  /** `plan_write`: the whole file as one hunk. */
  function PlanWrite(previews: seq<Option<(string, PatchHunk)>>): Option<seq<HunkView>> {
    if |previews| != 1 then None else PlanEdits(previews)
  }

  /** `plan_edit_hunks`: `previews` is what diffing each edit, or the written file, gave. */
  function PlanHunks(name: string, args: Arguments, previews: seq<Option<(string, PatchHunk)>>): Option<seq<HunkView>> {
    if args.Malformed? then None
    else if name == "write" then PlanWrite(previews)
    else if name == "str_replace" || name == "edit" || name == "hashline_edit" then
      if args.edits.None? || |args.edits.value| != |previews| then None else PlanEdits(previews)
    else if name == "apply_patch" then (if args.patch.None? then None else PlanApplyPatch(args.patch.value))
    else None
  }

  function IdsOf(views: seq<HunkView>): (ids: seq<string>)
    ensures |ids| == |views|
  {
    seq(|views|, i requires 0 <= i < |views| => views[i].id)
  }

  /** What a view shows apart from its id, which renumbering changes. */
  function Shown(views: seq<HunkView>): seq<HunkView> {
    seq(|views|, i requires 0 <= i < |views| => views[i].(id := ""))
  }

  // ---------------------------------------------------------------- lemmas about printing and selecting

  lemma {:induction false} UnlinesSplit(a: seq<string>, b: seq<string>)
    ensures Unlines(a + b) == Unlines(a) + Unlines(b)
  {
    if a == [] {
      assert a + b == b;
    } else {
      assert (a + b)[1..] == a[1..] + b;
      UnlinesSplit(a[1..], b);
    }
  }

  lemma UnlinesOne(line: string)
    ensures Unlines([line]) == line + "\n"
  {
    assert Unlines([line][1..]) == "";
  }

  lemma {:induction false} SelectSplit<T>(a: seq<T>, b: seq<T>, idsA: seq<string>, idsB: seq<string>, keep: string -> bool)
    requires |a| == |idsA| && |b| == |idsB|
    ensures Select(a + b, idsA + idsB, keep) == Select(a, idsA, keep) + Select(b, idsB, keep)
  {
    if a == [] {
      assert a + b == b && idsA + idsB == idsB;
    } else {
      assert (a + b)[1..] == a[1..] + b && (idsA + idsB)[1..] == idsA[1..] + idsB;
      SelectSplit(a[1..], b, idsA[1..], idsB, keep);
      Associates(if keep(idsA[0]) then [a[0]] else [], Select(a[1..], idsA[1..], keep), Select(b, idsB, keep));
    }
  }

  // ---------------------------------------------------------------- ids

  lemma CutAtChar(before: string, c: char, after: string)
    requires c !in before
    ensures var s := before + [c] + after;
            FindChar(s, c) == |before| && s[..|before|] == before && s[|before| + 1..] == after
  {
    FindCharAfter(before, c, after);
  }

  lemma HunkIdParts(file: nat, number: nat)
    ensures var id, at := HunkId(file, number), FindChar(HunkId(file, number), 'h');
            at < |id| && id[..at] == "f" + Decimal(file) && id[at + 1..] == Decimal(number)
  {
    DecimalReadsBack(file);
    CutAtChar("f" + Decimal(file), 'h', Decimal(number));
  }

  lemma HunkIdInjective(file: nat, number: nat, file': nat, number': nat)
    requires HunkId(file, number) == HunkId(file', number')
    ensures file == file' && number == number'
  {
    HunkIdParts(file, number);
    HunkIdParts(file', number');
    assert ("f" + Decimal(file))[1..] == Decimal(file) && ("f" + Decimal(file'))[1..] == Decimal(file');
    DecimalInjective(file, file');
    DecimalInjective(number, number');
  }

  lemma {:induction false} IdsNameHunks(files: seq<PatchFile>, fileIndex: nat, at: nat)
    requires at < |Ids(files, fileIndex)|
    ensures exists f, n :: fileIndex <= f && Ids(files, fileIndex)[at] == HunkId(f, n)
  {
    var here := HunkIds(fileIndex, 1, |files[0].hunks|);
    if at < |here| {
      assert Ids(files, fileIndex)[at] == HunkId(fileIndex, 1 + at);
    } else {
      IdsNameHunks(files[1..], fileIndex + 1, at - |here|);
    }
  }

  /** No two hunks of a patch share an id. */
  lemma {:induction false} IdsDistinct(files: seq<PatchFile>, fileIndex: nat, i: nat, j: nat)
    requires i < j < |Ids(files, fileIndex)|
    ensures Ids(files, fileIndex)[i] != Ids(files, fileIndex)[j]
  {
    var ids, here := Ids(files, fileIndex), HunkIds(fileIndex, 1, |files[0].hunks|);
    if j < |here| {
      if ids[i] == ids[j] {
        HunkIdInjective(fileIndex, 1 + i, fileIndex, 1 + j);
      }
    } else if i >= |here| {
      IdsDistinct(files[1..], fileIndex + 1, i - |here|, j - |here|);
    } else {
      IdsNameHunks(files[1..], fileIndex + 1, j - |here|);
      var f, n :| fileIndex + 1 <= f && ids[j] == HunkId(f, n);
      if ids[i] == ids[j] {
        HunkIdInjective(fileIndex, 1 + i, f, n);
      }
    }
  }
}
