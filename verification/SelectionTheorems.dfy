/** What approving some hunks of a call guarantees: the ids, the partition, and the rewritten patch. */
module SelectionTheorems {
  import opened Common
  import opened PatchFormat
  import opened PatchRoundTrip
  import opened HunkHeaders
  import opened HunkSelection

  // ---------------------------------------------------------------- ids and their partition

  /** The ids of the hunks a call can be split into. */
  function CallIds(name: string, args: Arguments): Option<seq<string>> {
    if name == "write" then Some([HunkId(0, 1)])
    else if args.Malformed? then None
    else if name == "apply_patch" then
      if args.patch.None? || Parse(args.patch.value).None? then None
      else Some(Ids(Parse(args.patch.value).value, 0))
    else if name == "str_replace" || name == "edit" || name == "hashline_edit" then
      if args.edits.None? then None else Some(HunkIds(0, 1, |args.edits.value|))
    else None
  }

  /** `part` is `whole` with some items left out. */
  predicate KeepsOrder(part: seq<string>, whole: seq<string>) {
    part == [] ||
    (whole != [] && if part[0] == whole[0] then KeepsOrder(part[1..], whole[1..]) else KeepsOrder(part, whole[1..]))
  }

  lemma {:induction false} SelectKeepsOrder(ids: seq<string>, keep: string -> bool)
    requires Distinct(ids)
    ensures KeepsOrder(Select(ids, ids, keep), ids)
  {
    if ids != [] {
      var rest := ids[1..];
      assert forall i, j :: 0 <= i < j < |rest| ==> rest[i] == ids[i + 1] && rest[j] == ids[j + 1];
      SelectKeepsOrder(rest, keep);
      var selected := Select(rest, rest, keep);
      if keep(ids[0]) {
        assert Select(ids, ids, keep)[1..] == selected;
      } else {
        assert Select(ids, ids, keep) == selected;
        if selected != [] {
          SelectMembers(rest, keep);
          assert selected[0] in rest;
        }
      }
    }
  }

  lemma {:induction false} SelectMembers(ids: seq<string>, keep: string -> bool)
    ensures forall id :: id in Select(ids, ids, keep) <==> id in ids && keep(id)
  {
    if ids != [] {
      SelectMembers(ids[1..], keep);
      assert ids == [ids[0]] + ids[1..];
    }
  }

  lemma {:induction false} SelectSplitsIds(ids: seq<string>, approved: set<string>)
    ensures multiset(Select(ids, ids, Among(approved))) + multiset(Select(ids, ids, NotAmong(approved))) == multiset(ids)
  {
    if ids != [] {
      SelectSplitsIds(ids[1..], approved);
      assert ids == [ids[0]] + ids[1..];
    }
  }

  /** A call's hunk ids are pairwise distinct. */
  lemma CallIdsDistinct(name: string, args: Arguments)
    requires CallIds(name, args).Some?
    ensures Distinct(CallIds(name, args).value)
  {
    var ids := CallIds(name, args).value;
    forall i, j | 0 <= i < j < |ids| ensures ids[i] != ids[j] {
      if name == "apply_patch" {
        IdsDistinct(Parse(args.patch.value).value, 0, i, j);
      } else if ids[i] == ids[j] {
        HunkIdInjective(0, 1 + i, 0, 1 + j);
      }
    }
  }

  /** Applied and rejected split `ids` in order, and applied are the approved ones. */
  predicate Partitions(ids: seq<string>, applied: seq<string>, rejected: seq<string>, approved: set<string>) {
    && Distinct(ids)
    && (set id | id in applied) == approved
    && multiset(applied) + multiset(rejected) == multiset(ids)
    && KeepsOrder(applied, ids) && KeepsOrder(rejected, ids)
  }

  lemma SelectionPartitions(ids: seq<string>, approved: set<string>)
    requires Distinct(ids) && AllKnown(approved, ids)
    ensures Partitions(ids, Select(ids, ids, Among(approved)), Select(ids, ids, NotAmong(approved)), approved)
  {
    SelectMembers(ids, Among(approved));
    SelectSplitsIds(ids, approved);
    SelectKeepsOrder(ids, Among(approved));
    SelectKeepsOrder(ids, NotAmong(approved));
  }

  /** A selection is accepted exactly when it is non-empty and names only hunks of the call; then the
      applied ids are the approved ones, and applied and rejected split the call's ids in order. */
  lemma AcceptedSelection(name: string, args: Arguments, approved: set<string>)
    ensures var ids := CallIds(name, args);
            EditFiltered(name, args, approved).Ok? <==> approved != {} && ids.Some? && AllKnown(approved, ids.value)
    ensures EditFiltered(name, args, approved).Ok? ==>
              var r := EditFiltered(name, args, approved).value;
              Partitions(CallIds(name, args).value, r.applied, r.rejected, approved)
  {
    if approved != {} && CallIds(name, args).Some? && AllKnown(approved, CallIds(name, args).value) {
      var ids := CallIds(name, args).value;
      CallIdsDistinct(name, args);
      SelectionPartitions(ids, approved);
      if name == "write" {
        WriteIsOneHunk(approved);
      }
    }
  }

  lemma WriteIsOneHunk(approved: set<string>)
    requires approved != {} && AllKnown(approved, [HunkId(0, 1)])
    ensures var ids := [HunkId(0, 1)];
            Select(ids, ids, Among(approved)) == ids && Select(ids, ids, NotAmong(approved)) == []
  {
    var ids := [HunkId(0, 1)];
    var id :| id in approved;
    assert id in ids && ids[1..] == [];
  }

  lemma {:induction false} ViewIds(files: seq<PatchFile>, fileIndex: nat)
    ensures IdsOf(Views(files, fileIndex)) == Ids(files, fileIndex)
  {
    if files != [] {
      ViewIds(files[1..], fileIndex + 1);
      assert IdsOf(Views(files, fileIndex)) ==
             IdsOf(FileViews(files[0], fileIndex)) + IdsOf(Views(files[1..], fileIndex + 1));
    }
  }

  /** For every tool, the ids the filter derives are those the plan showed; a patch is planned exactly when
      it can be filtered. */
  lemma PlanShowsCallIds(name: string, args: Arguments, previews: seq<Option<(string, PatchHunk)>>)
    ensures PlanHunks(name, args, previews).Some? ==> CallIds(name, args) == Some(IdsOf(PlanHunks(name, args, previews).value))
    ensures name == "apply_patch" ==> (PlanHunks(name, args, previews).Some? <==> CallIds(name, args).Some?)
  {
    if PlanHunks(name, args, previews).Some? {
      if name == "apply_patch" {
        ViewIds(Parse(args.patch.value).value, 0);
      } else {
        EditIds(previews);
        assert HunkIds(0, 1, 1) == [HunkId(0, 1)];
      }
    }
  }

  lemma EditIds(previews: seq<Option<(string, PatchHunk)>>)
    requires PlanEdits(previews).Some?
    ensures IdsOf(PlanEdits(previews).value) == HunkIds(0, 1, |previews|)
  {
  }

  // ---------------------------------------------------------------- the rewritten edits

  /** The item stands where its id does. */
  ghost predicate StandsUnder<T>(item: T, id: string, items: seq<T>, ids: seq<string>)
    requires |items| == |ids|
  {
    exists n :: 0 <= n < |items| && id == ids[n] && item == items[n]
  }

  /** The `k`th item kept is the one whose id is the `k`th kept id. */
  ghost predicate KeptUnder<T>(kept: seq<T>, keptIds: seq<string>, items: seq<T>, ids: seq<string>)
    requires |items| == |ids|
  {
    |kept| == |keptIds| && forall k :: 0 <= k < |kept| ==> StandsUnder(kept[k], keptIds[k], items, ids)
  }

  lemma StandsUnderMore<T>(item: T, id: string, items: seq<T>, ids: seq<string>)
    requires |items| == |ids| && items != [] && StandsUnder(item, id, items[1..], ids[1..])
    ensures StandsUnder(item, id, items, ids)
  {
    var n :| 0 <= n < |items| - 1 && id == ids[1..][n] && item == items[1..][n];
    assert id == ids[n + 1] && item == items[n + 1];
  }

  lemma KeptMore<T>(kept: seq<T>, keptIds: seq<string>, items: seq<T>, ids: seq<string>)
    requires |items| == |ids| && items != [] && KeptUnder(kept, keptIds, items[1..], ids[1..])
    ensures KeptUnder(kept, keptIds, items, ids)
  {
    forall k | 0 <= k < |kept| ensures StandsUnder(kept[k], keptIds[k], items, ids) {
      StandsUnderMore(kept[k], keptIds[k], items, ids);
    }
  }

  lemma KeptFirst<T>(kept: seq<T>, keptIds: seq<string>, items: seq<T>, ids: seq<string>)
    requires |items| == |ids| && items != [] && KeptUnder(kept, keptIds, items, ids)
    ensures KeptUnder([items[0]] + kept, [ids[0]] + keptIds, items, ids)
  {
    assert StandsUnder(items[0], ids[0], items, ids);
    forall k | 0 < k <= |kept| ensures StandsUnder(([items[0]] + kept)[k], ([ids[0]] + keptIds)[k], items, ids) {
      assert StandsUnder(kept[k - 1], keptIds[k - 1], items, ids);
    }
  }

  lemma {:induction false} SelectedTogether<T>(items: seq<T>, ids: seq<string>, keep: string -> bool)
    requires |items| == |ids|
    ensures KeptUnder(Select(items, ids, keep), Select(ids, ids, keep), items, ids)
  {
    if items != [] {
      var kept, keptIds := Select(items[1..], ids[1..], keep), Select(ids[1..], ids[1..], keep);
      SelectedTogether(items[1..], ids[1..], keep);
      KeptMore(kept, keptIds, items, ids);
      if keep(ids[0]) {
        KeptFirst(kept, keptIds, items, ids);
      } else {
        assert [] + kept == kept && [] + keptIds == keptIds;
      }
    }
  }

  /** The call that is rewritten holds, under the ids of the hunks applied, the very edits those ids name, and
      nothing else of it is changed. */
  lemma KeptEditsExactly(name: string, args: Arguments, approved: set<string>)
    requires EditFiltered(name, args, approved).Ok?
    ensures var r := EditFiltered(name, args, approved).value;
            && (name == "write" ==> r.arguments == args)
            && (name == "apply_patch" ==> args.Arguments? && r.arguments == args.(patch := r.arguments.patch))
            && (name != "write" && name != "apply_patch" ==>
                  && args.Arguments? && args.edits.Some? && r.arguments.Arguments? && r.arguments.edits.Some?
                  && r.arguments == args.(edits := r.arguments.edits)
                  && KeptUnder(r.arguments.edits.value, r.applied, args.edits.value, HunkIds(0, 1, |args.edits.value|)))
  {
    if name != "write" && name != "apply_patch" {
      SelectedTogether(args.edits.value, HunkIds(0, 1, |args.edits.value|), Among(approved));
    }
  }

  ghost predicate ShowsEdit(v: HunkView, preview: Option<(string, PatchHunk)>) {
    preview.Some? && v.file == preview.value.0 && PatchHunk(v.header, v.lines) == preview.value.1
  }

  /** An edit that is kept is one whose own preview the user was shown under the id that is applied. */
  ghost predicate WasShown(edit: string, id: string, edits: seq<string>, previews: seq<Option<(string, PatchHunk)>>, views: seq<HunkView>)
    requires |edits| == |previews| == |views|
  {
    exists n :: 0 <= n < |edits| && edits[n] == edit && views[n].id == id && ShowsEdit(views[n], previews[n])
  }

  lemma EditViewShows(previews: seq<Option<(string, PatchHunk)>>, n: nat)
    requires PlanEdits(previews).Some? && n < |previews|
    ensures var views := PlanEdits(previews).value;
            |views| == |previews| && views[n].id == HunkIds(0, 1, |previews|)[n] && ShowsEdit(views[n], previews[n])
  {
    assert previews[n].Some?;
  }

  lemma EditsAppliedWereShown(name: string, args: Arguments, previews: seq<Option<(string, PatchHunk)>>, approved: set<string>, k: nat)
    requires PlanHunks(name, args, previews).Some? && name != "write" && name != "apply_patch"
    requires EditFiltered(name, args, approved).Ok? && k < |EditFiltered(name, args, approved).value.applied|
    ensures var r, views := EditFiltered(name, args, approved).value, PlanHunks(name, args, previews).value;
            && args.Arguments? && args.edits.Some? && r.arguments.Arguments? && r.arguments.edits.Some?
            && |args.edits.value| == |previews| == |views| && |r.arguments.edits.value| == |r.applied|
            && WasShown(r.arguments.edits.value[k], r.applied[k], args.edits.value, previews, views)
  {
    KeptEditsExactly(name, args, approved);
    var r, ids := EditFiltered(name, args, approved).value, HunkIds(0, 1, |previews|);
    assert StandsUnder(r.arguments.edits.value[k], r.applied[k], args.edits.value, ids);
    var n :| 0 <= n < |previews| && r.applied[k] == ids[n] && r.arguments.edits.value[k] == args.edits.value[n];
    EditViewShows(previews, n);
  }

  // ---------------------------------------------------------------- the rewritten patch

  lemma {:induction false} SelectedAreCounted(hunks: seq<PatchHunk>, ids: seq<string>, keep: string -> bool)
    requires |hunks| == |ids| && AllCounted(hunks)
    ensures AllCounted(Select(hunks, ids, keep))
  {
    if hunks != [] {
      assert Counted(hunks[0]) && forall i :: 0 <= i < |hunks[1..]| ==> hunks[1..][i] == hunks[i + 1];
      SelectedAreCounted(hunks[1..], ids[1..], keep);
    }
  }

  lemma KeptSectionIsWellFormed(f: PatchFile, fileIndex: nat, approved: set<string>)
    requires WellFormed(f)
    ensures WellFormed(f.(hunks := KeptHunks(f, fileIndex, approved)))
  {
    SelectedAreCounted(f.hunks, HunkIds(fileIndex, 1, |f.hunks|), Among(approved));
    assert Headed(f.(hunks := KeptHunks(f, fileIndex, approved)));
  }

  lemma {:induction false} RestrictedIsWellFormed(files: seq<PatchFile>, fileIndex: nat, approved: set<string>)
    requires AllWellFormed(files)
    ensures AllWellFormed(Restrict(files, fileIndex, approved)) && AllHaveHunks(Restrict(files, fileIndex, approved))
  {
    if files != [] {
      KeptSectionIsWellFormed(files[0], fileIndex, approved);
      RestrictedIsWellFormed(files[1..], fileIndex + 1, approved);
    }
  }

  lemma {:induction false} SelectFinds<T>(items: seq<T>, ids: seq<string>, approved: set<string>, id: string)
    requires |items| == |ids| && id in ids && id in approved
    ensures Select(items, ids, Among(approved)) != []
  {
    if ids[0] != id {
      assert ids == [ids[0]] + ids[1..];
      SelectFinds(items[1..], ids[1..], approved, id);
    }
  }

  lemma {:induction false} RestrictedKeepsSome(files: seq<PatchFile>, fileIndex: nat, approved: set<string>, id: string)
    requires id in approved && id in Ids(files, fileIndex)
    ensures Restrict(files, fileIndex, approved) != []
  {
    var here := HunkIds(fileIndex, 1, |files[0].hunks|);
    if id in here {
      SelectFinds(files[0].hunks, here, approved, id);
    } else {
      RestrictedKeepsSome(files[1..], fileIndex + 1, approved, id);
    }
  }

  predicate Accepted(patch: string, approved: set<string>) {
    approved != {} && Parse(patch).Some? && AllKnown(approved, Ids(Parse(patch).value, 0))
  }

  function KeptSections(patch: string, approved: set<string>): seq<PatchFile>
    requires Accepted(patch, approved)
  {
    Restrict(Parse(patch).value, 0, approved)
  }

  lemma ParsedPatchIsWellFormed(patch: string)
    requires Parse(patch).Some?
    ensures Parse(patch).value != [] && AllWellFormed(Parse(patch).value) && AllHaveHunks(Parse(patch).value)
  {
    LinesHoldNoNewline(patch);
    ParsedIsWellFormed(Lines(patch), Start);
  }

  lemma KeptIsWellFormed(patch: string, approved: set<string>)
    requires Accepted(patch, approved)
    ensures var kept := KeptSections(patch, approved); kept != [] && AllWellFormed(kept) && AllHaveHunks(kept)
  {
    ParsedPatchIsWellFormed(patch);
    RestrictedIsWellFormed(Parse(patch).value, 0, approved);
    var id :| id in approved;
    RestrictedKeepsSome(Parse(patch).value, 0, approved, id);
  }

  /** The rewritten patch reads back as the original sections restricted to the approved hunks exactly
      when no kept line ends in a carriage return and no kept section opens with a line starting with
      a backslash right behind a hunk that has no marker line of its own. */
  lemma FilteredPatchReadsBack(patch: string, approved: set<string>)
    requires Accepted(patch, approved)
    ensures var kept := KeptSections(patch, approved);
            && FilterPatch(Some(patch), approved).Ok?
            && (Parse(FilterPatch(Some(patch), approved).value.0) == Some(kept) <==>
                Separable(kept) && CrFree(Print(kept)))
  {
    KeptIsWellFormed(patch, approved);
    ReadBackExactly(KeptSections(patch, approved));
  }

  lemma CrFreeParts(a: seq<string>, b: seq<string>)
    ensures CrFree(a + b) <==> CrFree(a) && CrFree(b)
  {
    assert forall l :: l in a + b <==> l in a || l in b;
  }

  lemma CrFreeFiles(r: Reading)
    requires r.Reading?
    ensures CrFree(Print(Files(r))) <==>
            CrFree(Print(r.done)) && CrFree(r.current.headerLines) && CrFree(PrintHunks(r.current.hunks))
  {
    PrintFiles(r);
    CrFreeParts(Print(r.done), r.current.headerLines + PrintHunks(r.current.hunks));
    CrFreeParts(r.current.headerLines, PrintHunks(r.current.hunks));
  }

  lemma AddedHunkLines(r: Reading, h: PatchHunk)
    requires r.Reading? && CrFree(Print(Files(r))) && CrFree([h.header] + h.lines)
    ensures CrFree(Print(Files(AddHunk(r, h))))
  {
    CrFreeFiles(r);
    CrFreeFiles(AddHunk(r, h));
    PrintHunksAdd(r.current.hunks, h);
    CrFreeParts(PrintHunks(r.current.hunks), [h.header] + h.lines);
  }

  lemma AddedHeaderLines(r: Reading, line: string)
    requires CrFree(Print(Files(r))) && !EndsWithCr(line)
    ensures CrFree(Print(Files(AddHeaderLine(r, line))))
  {
    CrFreeFiles(AddHeaderLine(r, line));
    if r.Reading? && AddHeaderLine(r, line).done == r.done {
      CrFreeFiles(r);
      CrFreeParts(r.current.headerLines, [line]);
    }
  }

  lemma StepPrintsLines(ls: seq<string>, r: Reading)
    requires ls != [] && ParseStep(ls, r).Read? && CrFree(ls) && CrFree(Print(Files(r)))
    ensures CrFree(Print(Files(ParseStep(ls, r).next)))
  {
    var n := ParseStep(ls, r).count;
    assert ls[0] in ls;
    if StartsWith(ls[0], "@@") {
      assert [ls[0]] + ls[1..n] == ls[..n];
      AddedHunkLines(r, PatchHunk(ls[0], ls[1..n]));
    } else if !IsBlank(ls[0]) {
      AddedHeaderLines(r, ls[0]);
    }
  }

  lemma {:induction false} PrintedComesFromLines(ls: seq<string>, r: Reading)
    requires ParseLines(ls, r).Some? && CrFree(ls) && CrFree(Print(Files(r)))
    ensures CrFree(Print(ParseLines(ls, r).value))
    decreases |ls|
  {
    if ls != [] {
      StepPrintsLines(ls, r);
      PrintedComesFromLines(ls[ParseStep(ls, r).count..], ParseStep(ls, r).next);
    }
  }

  lemma {:induction false} SelectedLines(hunks: seq<PatchHunk>, ids: seq<string>, keep: string -> bool)
    requires |hunks| == |ids| && CrFree(PrintHunks(hunks))
    ensures CrFree(PrintHunks(Select(hunks, ids, keep)))
  {
    if hunks != [] {
      var first, selected := [hunks[0].header] + hunks[0].lines, Select(hunks[1..], ids[1..], keep);
      CrFreeParts(first, PrintHunks(hunks[1..]));
      SelectedLines(hunks[1..], ids[1..], keep);
      CrFreeParts(first, PrintHunks(selected));
      assert ([hunks[0]] + selected)[1..] == selected && [] + selected == selected;
    }
  }

  lemma {:induction false} RestrictedLines(files: seq<PatchFile>, fileIndex: nat, approved: set<string>)
    requires CrFree(Print(files))
    ensures CrFree(Print(Restrict(files, fileIndex, approved)))
  {
    if files != [] {
      var f := files[0];
      var kept, rest := KeptHunks(f, fileIndex, approved), Restrict(files[1..], fileIndex + 1, approved);
      CrFreeParts(f.headerLines + PrintHunks(f.hunks), Print(files[1..]));
      CrFreeParts(f.headerLines, PrintHunks(f.hunks));
      SelectedLines(f.hunks, HunkIds(fileIndex, 1, |f.hunks|), Among(approved));
      RestrictedLines(files[1..], fileIndex + 1, approved);
      CrFreeParts(f.headerLines, PrintHunks(kept));
      CrFreeParts(f.headerLines + PrintHunks(kept), Print(rest));
      assert ([f.(hunks := kept)] + rest)[1..] == rest && [] + rest == rest;
    }
  }

  predicate PlainHeaders(files: seq<PatchFile>) {
    forall i :: 0 <= i < |files| && files[i].headerLines != [] ==> !IsMarker(files[i].headerLines[0])
  }

  lemma {:induction false} RestrictedHeaders(files: seq<PatchFile>, fileIndex: nat, approved: set<string>)
    requires PlainHeaders(files)
    ensures PlainHeaders(Restrict(files, fileIndex, approved))
  {
    if files != [] {
      assert forall i :: 0 <= i < |files[1..]| ==> files[1..][i] == files[i + 1];
      RestrictedHeaders(files[1..], fileIndex + 1, approved);
    }
  }

  lemma PlainIsSeparable(files: seq<PatchFile>)
    requires PlainHeaders(files)
    ensures Separable(files)
  {
    forall i | 0 <= i < |files| - 1 ensures !Clash(files[i], files[i + 1]) {
      assert files[i + 1].headerLines != [] ==> !IsMarker(files[i + 1].headerLines[0]);
    }
  }

  lemma KeptLinesAreCrFree(patch: string, approved: set<string>)
    requires Accepted(patch, approved) && CrFree(Lines(patch))
    ensures CrFree(Print(KeptSections(patch, approved)))
  {
    PrintedComesFromLines(Lines(patch), Start);
    RestrictedLines(Parse(patch).value, 0, approved);
  }

  /** What a caller can check before the call: a patch none of whose lines ends in a carriage return
      and none of whose sections opens with a backslash reads back right whatever is approved. */
  lemma OrdinaryPatchReadsBack(patch: string, approved: set<string>)
    requires Accepted(patch, approved)
    requires CrFree(Lines(patch)) && PlainHeaders(Parse(patch).value)
    ensures FilterPatch(Some(patch), approved).Ok?
    ensures Parse(FilterPatch(Some(patch), approved).value.0) == Some(KeptSections(patch, approved))
  {
    FilteredPatchReadsBack(patch, approved);
    KeptLinesAreCrFree(patch, approved);
    RestrictedHeaders(Parse(patch).value, 0, approved);
    PlainIsSeparable(KeptSections(patch, approved));
  }

  // ---------------------------------------------------------------- what the user saw is what is applied

  /** Each view shows its hunk. */
  predicate Shows(views: seq<HunkView>, hunks: seq<PatchHunk>, file: string) {
    |views| == |hunks| &&
    forall i :: 0 <= i < |views| ==>
      views[i].file == file && views[i].header == hunks[i].header && views[i].lines == hunks[i].lines
  }

  lemma {:induction false} ShownSelection(views: seq<HunkView>, hunks: seq<PatchHunk>, ids: seq<string>,
                                          file: string, keep: string -> bool)
    requires |ids| == |views| && Shows(views, hunks, file)
    ensures Shows(Select(views, ids, keep), Select(hunks, ids, keep), file)
  {
    if views != [] {
      ShownSelection(views[1..], hunks[1..], ids[1..], file, keep);
    }
  }

  lemma ShownFile(f: PatchFile, fileIndex: nat, newIndex: nat, approved: set<string>)
    ensures Shown(Select(FileViews(f, fileIndex), HunkIds(fileIndex, 1, |f.hunks|), Among(approved))) ==
            Shown(FileViews(f.(hunks := KeptHunks(f, fileIndex, approved)), newIndex))
  {
    ShownSelection(FileViews(f, fileIndex), f.hunks, HunkIds(fileIndex, 1, |f.hunks|), f.fileLabel, Among(approved));
  }

  lemma ShownSplit(a: seq<HunkView>, b: seq<HunkView>)
    ensures Shown(a + b) == Shown(a) + Shown(b)
  {
  }

  lemma {:induction false} ShownSections(files: seq<PatchFile>, fileIndex: nat, newIndex: nat, approved: set<string>)
    requires |Views(files, fileIndex)| == |Ids(files, fileIndex)|
    ensures Shown(Select(Views(files, fileIndex), Ids(files, fileIndex), Among(approved))) ==
            Shown(Views(Restrict(files, fileIndex, approved), newIndex))
  {
    if files != [] {
      var f, ids, later := files[0], HunkIds(fileIndex, 1, |files[0].hunks|), Ids(files[1..], fileIndex + 1);
      var views, laterViews := FileViews(f, fileIndex), Views(files[1..], fileIndex + 1);
      var kept := f.(hunks := KeptHunks(f, fileIndex, approved));
      var rest := Restrict(files[1..], fileIndex + 1, approved);
      ViewIds(files[1..], fileIndex + 1);
      SelectSplit(views, laterViews, ids, later, Among(approved));
      ShownFile(f, fileIndex, newIndex, approved);
      ShownSplit(Select(views, ids, Among(approved)), Select(laterViews, later, Among(approved)));
      if kept.hunks == [] {
        ShownSections(files[1..], fileIndex + 1, newIndex, approved);
        assert Shown(FileViews(kept, newIndex)) == [];
        assert Restrict(files, fileIndex, approved) == rest;
      } else {
        ShownSections(files[1..], fileIndex + 1, newIndex + 1, approved);
        assert Restrict(files, fileIndex, approved) == [kept] + rest && ([kept] + rest)[1..] == rest;
        ShownSplit(FileViews(kept, newIndex), Views(rest, newIndex + 1));
      }
    }
  }

  /** Planning the rewritten patch shows what planning the original showed under the approved ids: the
      same files, headers and lines in the same order, and nothing else. */
  lemma ApprovedIsWhatWasShown(patch: string, approved: set<string>)
    requires Accepted(patch, approved)
    requires CrFree(Lines(patch)) && PlainHeaders(Parse(patch).value)
    ensures var views := PlanApplyPatch(patch).value;
            var again := PlanApplyPatch(FilterPatch(Some(patch), approved).value.0);
            && again.Some?
            && Shown(again.value) == Shown(Select(views, IdsOf(views), Among(approved)))
  {
    OrdinaryPatchReadsBack(patch, approved);
    ViewIds(Parse(patch).value, 0);
    ShownSections(Parse(patch).value, 0, 0, approved);
  }

  // ---------------------------------------------------------------- approving everything

  lemma {:induction false} SelectAll<T>(items: seq<T>, ids: seq<string>, approved: set<string>)
    requires |items| == |ids| && forall id :: id in ids ==> id in approved
    ensures Select(items, ids, Among(approved)) == items
  {
    if items != [] {
      assert ids[0] in ids && forall id :: id in ids[1..] ==> id in ids;
      SelectAll(items[1..], ids[1..], approved);
    }
  }

  lemma {:induction false} RestrictToAll(files: seq<PatchFile>, fileIndex: nat, approved: set<string>)
    requires AllHaveHunks(files) && forall id :: id in Ids(files, fileIndex) ==> id in approved
    ensures Restrict(files, fileIndex, approved) == files
  {
    if files != [] {
      var here := HunkIds(fileIndex, 1, |files[0].hunks|);
      assert forall id :: id in here || id in Ids(files[1..], fileIndex + 1) ==> id in Ids(files, fileIndex);
      assert forall i :: 0 <= i < |files[1..]| ==> files[1..][i] == files[i + 1];
      SelectAll(files[0].hunks, here, approved);
      RestrictToAll(files[1..], fileIndex + 1, approved);
    }
  }

  /** Approving every hunk only normalises the patch, and normalising twice changes nothing more. */
  lemma ApprovingAllNormalises(patch: string)
    requires Parse(patch).Some? && CrFree(Lines(patch)) && PlainHeaders(Parse(patch).value)
    ensures var all := set id | id in Ids(Parse(patch).value, 0);
            && FilterPatch(Some(patch), all).Ok?
            && var text := FilterPatch(Some(patch), all).value.0;
               Parse(text) == Parse(patch) && FilterPatch(Some(text), all) == FilterPatch(Some(patch), all)
  {
    var files := Parse(patch).value;
    var all := set id | id in Ids(files, 0);
    ParsedPatchIsWellFormed(patch);
    assert HunkIds(0, 1, |files[0].hunks|)[0] in Ids(files, 0);
    RestrictToAll(files, 0, all);
    OrdinaryPatchReadsBack(patch, all);
  }

  // ---------------------------------------------------------------- the shape that does not read back

  function TwoApart(f: PatchFile, g: PatchFile): seq<string> {
    Print([f]) + ([""] + Print([g]))
  }

  lemma SkipBlank(ls: seq<string>, r: Reading)
    requires ls != [] && ls[0] == ""
    ensures ParseLines(ls, r) == ParseLines(ls[1..], r)
  {
  }

  lemma ReadTwoApart(f: PatchFile, g: PatchFile)
    requires WellFormed(f) && WellFormed(g) && f.hunks != [] && g.hunks != []
    ensures ParseLines(TwoApart(f, g), Start) == Some([f, g])
  {
    PrintOne(f);
    ReadSection(f, [""] + Print([g]), Start);
    ReadBehindBlank(f, g);
  }

  lemma ReadBehindBlank(f: PatchFile, g: PatchFile)
    requires WellFormed(g) && f.hunks != [] && g.hunks != []
    ensures ParseLines([""] + Print([g]), Reading([], f)) == Some([f, g])
  {
    var rest := [""] + Print([g]);
    SkipBlank(rest, Reading([], f));
    assert rest[1..] == Print([g]) && Print([g]) + [] == Print([g]);
    PrintOne(g);
    ReadSection(g, [], Reading([], f));
    assert [] + [f] == [f] && [f] + [g] == [f, g];
  }

  lemma TwoApartParses(f: PatchFile, g: PatchFile)
    requires WellFormed(f) && WellFormed(g) && f.hunks != [] && g.hunks != [] && CrFree(TwoApart(f, g))
    ensures Parse(Unlines(TwoApart(f, g))) == Some([f, g])
  {
    PrintedHoldsNoNewline([f]);
    PrintedHoldsNoNewline([g]);
    LinesOfUnlines(TwoApart(f, g));
    StrippingShrinks(TwoApart(f, g));
    ReadTwoApart(f, g);
  }

  /** Two sections apart by a blank line that clash without it: the reader takes them apart, but
      approving every hunk prints them without the blank line, and they no longer come back. */
  lemma ClashingSectionsAreLost(f: PatchFile, g: PatchFile)
    requires WellFormed(f) && WellFormed(g) && f.hunks != [] && g.hunks != [] && Clash(f, g)
    requires CrFree(TwoApart(f, g))
    ensures var patch := Unlines(TwoApart(f, g));
            var all := set id | id in Ids([f, g], 0);
            && Parse(patch) == Some([f, g]) && Accepted(patch, all)
            && Parse(FilterPatch(Some(patch), all).value.0) != Some(KeptSections(patch, all))
  {
    var patch := Unlines(TwoApart(f, g));
    TwoApartParses(f, g);
    var all := set id | id in Ids([f, g], 0);
    var here := HunkIds(0, 1, |f.hunks|);
    assert here[0] in here && here[0] in Ids([f, g], 0);
    RestrictToAll([f, g], 0, all);
    FilteredPatchReadsBack(patch, all);
    assert Clash([f, g][0], [f, g][1]);
  }

  lemma LostSections(f: PatchFile, g: PatchFile) returns (patch: string, approved: set<string>)
    requires WellFormed(f) && WellFormed(g) && f.hunks != [] && g.hunks != [] && Clash(f, g)
    requires CrFree(TwoApart(f, g))
    ensures Accepted(patch, approved)
    ensures Parse(FilterPatch(Some(patch), approved).value.0) != Some(KeptSections(patch, approved))
  {
    ClashingSectionsAreLost(f, g);
    patch, approved := Unlines(TwoApart(f, g)), set id | id in Ids([f, g], 0);
  }

  lemma OneLineCounts()
    ensures ParseHunkCounts("@@ -1 +1 @@") == Some((1, 1))
  {
    HeaderCounts(1, None, 1, None, "");
    assert Decimal(1) == "1" && HunkHeader("1", "1", "") == "@@ -1 +1 @@";
  }

  lemma OneLineBody()
    ensures HunkLength(["-a", "+b"], (1, 1)) == Some(2)
  {
    var body := ["-a", "+b"];
    assert body[1..] == ["+b"] && body[1..][1..] == [];
    assert BodyLength(body[1..], 0, 1) == Some(1);
  }

  lemma CountedIf(h: PatchHunk, counts: (nat, nat))
    requires StartsWith(h.header, "@@") && ParseHunkCounts(h.header) == Some(counts) && '\n' !in h.header
    requires HunkLength(h.lines, counts) == Some(|h.lines|) && forall i :: 0 <= i < |h.lines| ==> '\n' !in h.lines[i]
    ensures Counted(h)
  {
  }

  const ONE_LINE_HUNK := PatchHunk("@@ -1 +1 @@", ["-a", "+b"])

  lemma OneLineHunk()
    ensures Counted(ONE_LINE_HUNK) && !HasMarker(ONE_LINE_HUNK)
    ensures CrFree(PrintHunks([ONE_LINE_HUNK]))
  {
    OneLineIsCounted();
    OneLineHasNoMarker();
    OneLinePrint();
  }

  lemma OneLineHasNoMarker()
    ensures !HasMarker(ONE_LINE_HUNK)
  {
    var last := Last(ONE_LINE_HUNK.lines);
    assert last == "+b" && last[0] == '+' && "\\"[0] == '\\';
  }

  lemma OneLineIsCounted()
    ensures Counted(ONE_LINE_HUNK)
  {
    OneLineCounts();
    OneLineBody();
    OneLineIsPlain();
    CountedIf(ONE_LINE_HUNK, (1, 1));
  }

  lemma OneLineIsPlain()
    ensures StartsWith(ONE_LINE_HUNK.header, "@@") && '\n' !in ONE_LINE_HUNK.header
    ensures forall i :: 0 <= i < |ONE_LINE_HUNK.lines| ==> '\n' !in ONE_LINE_HUNK.lines[i]
  {
  }

  lemma OneLinePrint()
    ensures CrFree(PrintHunks([ONE_LINE_HUNK]))
  {
    assert [ONE_LINE_HUNK][1..] == [];
    assert PrintHunks([ONE_LINE_HUNK]) == ["@@ -1 +1 @@", "-a", "+b"];
  }

  function OneLineSection(header: string): PatchFile {
    PatchFile([header], LabelOf([header]), [ONE_LINE_HUNK])
  }

  lemma OneLineSectionReads(header: string)
    requires HeaderLine(header) && !EndsWithCr(header)
    ensures WellFormed(OneLineSection(header)) && CrFree(Print([OneLineSection(header)]))
  {
    OneLineHunk();
    PrintOne(OneLineSection(header));
    CrFreeParts([header], PrintHunks([ONE_LINE_HUNK]));
  }

  lemma OneLineSectionsClash(first: string, second: string)
    requires HeaderLine(first) && HeaderLine(second) && !EndsWithCr(first) && !EndsWithCr(second) && IsMarker(second)
    ensures var f, g := OneLineSection(first), OneLineSection(second);
            WellFormed(f) && WellFormed(g) && Clash(f, g) && CrFree(TwoApart(f, g))
  {
    var f, g := OneLineSection(first), OneLineSection(second);
    OneLineHunk();
    OneLineSectionReads(first);
    OneLineSectionReads(second);
    CrFreeParts([""], Print([g]));
    CrFreeParts(Print([f]), [""] + Print([g]));
  }

  lemma ExampleHeaders()
    ensures HeaderLine("+x") && !EndsWithCr("+x")
    ensures HeaderLine("\\z") && !EndsWithCr("\\z") && IsMarker("\\z")
  {
    assert "+x"[0] == '+' && "\\z"[0] == '\\';
    assert '+' in "+x" && 'z' in "\\z" && !IsWhitespace('+') && !IsWhitespace('z');
  }

  /** The concrete case: a section opening with a backslash, behind a hunk without a marker, is lost. */
  lemma BackslashHeaderIsLost() returns (patch: string, approved: set<string>)
    ensures Accepted(patch, approved)
    ensures Parse(FilterPatch(Some(patch), approved).value.0) != Some(KeptSections(patch, approved))
  {
    ExampleHeaders();
    OneLineSectionsClash("+x", "\\z");
    patch, approved := LostSections(OneLineSection("+x"), OneLineSection("\\z"));
  }
}
