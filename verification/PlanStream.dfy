/** The plan as the model writes it: fragments of a call's arguments in, pieces of its title and text
    out (`PlanDraft` in crates/agent-core/src/core.rs). */
module PlanStream {
  import opened Common
  import opened PartialJson
  import opened PartialJsonTheorems
  import opened PartialJsonObjects
  import opened PartialJsonKeys

  /** `sent` counts the characters of the plan the client has. */
  datatype Draft = Draft(callId: string, arguments: string, title: string, sent: nat)

  const EMPTY := Draft("", "", "", 0)

  datatype DraftEvent = DraftEvent(id: string, title: string, append: string)

  datatype Fragment = Fragment(callId: string, delta: string)

  function TitleOf(arguments: string): string {
    Shown(Field(arguments, "title"))
  }

  function PlanOf(arguments: string): string {
    Shown(Field(arguments, "plan"))
  }

  /** `str::get(from..)`, or nothing. */
  function After(text: string, from: nat): string {
    if from <= |text| then text[from..] else ""
  }

  /** Another call's fragment starts over. */
  predicate StartsOver(d: Draft, f: Fragment) {
    f.callId != "" && f.callId != d.callId && d.callId != ""
  }

  /** The draft with the fragment in it. */
  function Receive(d: Draft, f: Fragment): Draft {
    var start := if StartsOver(d, f) then EMPTY else d;
    start.(callId := if f.callId != "" then f.callId else start.callId, arguments := start.arguments + f.delta)
  }

  function EventOf(d: Draft): Option<DraftEvent> {
    var title, append := TitleOf(d.arguments), After(PlanOf(d.arguments), d.sent);
    if append == "" && title == d.title then None
    else Some(DraftEvent(if d.callId == "" then "draft" else d.callId, title, append))
  }

  function Told(d: Draft): Draft {
    if EventOf(d).None? then d else d.(title := TitleOf(d.arguments), sent := |PlanOf(d.arguments)|)
  }

  function Pushed(d: Draft, f: Fragment): Draft {
    Told(Receive(d, f))
  }

  class PlanDraft {
    var callId: string
    var arguments: string
    var title: string
    var sent: nat

    ghost function View(): Draft
      reads this
    {
      Draft(callId, arguments, title, sent)
    }

    constructor ()
      ensures View() == EMPTY
    {
      callId, arguments, title, sent := "", "", "", 0;
    }

    method Push(id: string, delta: string) returns (event: Option<DraftEvent>)
      modifies this
      ensures View() == Pushed(old(View()), Fragment(id, delta))
      ensures event == EventOf(Receive(old(View()), Fragment(id, delta)))
    {
      if id != "" && id != callId {
        if callId != "" {
          arguments, title, sent := "", "", 0;
        }
        callId := id;
      }
      arguments := arguments + delta;
      var titleField := PartialStringField(arguments, "title");
      var planField := PartialStringField(arguments, "plan");
      var newTitle, plan := Shown(titleField), Shown(planField);
      var append := if sent <= |plan| then plan[sent..] else "";
      if append == "" && newTitle == title {
        return None;
      }
      sent, title := |plan|, newTitle;
      event := Some(DraftEvent(if callId == "" then "draft" else callId, title, append));
    }
  }

  // ---------------------------------------------------------------- what the client sees

  /** The client's copy: it appends what it is sent, and starts over when the draft does. */
  datatype Stream = Stream(draft: Draft, title: string, shown: string)

  const UNSEEN := Stream(EMPTY, "", "")

  function Push(s: Stream, f: Fragment): Stream {
    var kept := if StartsOver(s.draft, f) then UNSEEN else s;
    match EventOf(Receive(s.draft, f))
    case None => Stream(Pushed(s.draft, f), kept.title, kept.shown)
    case Some(e) => Stream(Pushed(s.draft, f), e.title, kept.shown + e.append)
  }

  function PushAll(s: Stream, fs: seq<Fragment>): Stream
    decreases |fs|
  {
    if fs == [] then s else PushAll(Push(s, fs[0]), fs[1..])
  }

  /** The client has the title and the plan as far as they have arrived. */
  predicate InStep(s: Stream) {
    && s.draft.title == s.title == TitleOf(s.draft.arguments)
    && s.draft.sent == |s.shown| && s.shown == PlanOf(s.draft.arguments)
  }

  lemma PushKeepsInStep(s: Stream, f: Fragment)
    requires InStep(s)
    ensures InStep(Push(s, f))
  {
    var start := if StartsOver(s.draft, f) then EMPTY else s.draft;
    var kept := if StartsOver(s.draft, f) then "" else s.shown;
    assert kept == PlanOf(start.arguments) by {
      assert PlanOf("") == "";
    }
    assert TitleOf("") == "";
    FieldGrows(start.arguments, f.delta, Pattern("plan"));
    var plan := PlanOf(start.arguments + f.delta);
    assert kept + plan[|kept|..] == plan;
  }

  lemma {:induction false} PushAllKeepsInStep(s: Stream, fs: seq<Fragment>)
    requires InStep(s)
    ensures InStep(PushAll(s, fs))
    decreases |fs|
  {
    if fs != [] {
      PushKeepsInStep(s, fs[0]);
      PushAllKeepsInStep(Push(s, fs[0]), fs[1..]);
    }
  }

  // ---------------------------------------------------------------- several calls

  /** The call named last, or nothing. */
  function NamedLast(fs: seq<Fragment>): string {
    if fs == [] then ""
    else if fs[|fs| - 1].callId != "" then fs[|fs| - 1].callId
    else NamedLast(fs[..|fs| - 1])
  }

  /** The last fragment that names a call other than the one named before it; 0 when there is none. */
  function LastStart(fs: seq<Fragment>): (at: nat)
    ensures at <= |fs|
  {
    if fs == [] then 0
    else
      var before, id := fs[..|fs| - 1], fs[|fs| - 1].callId;
      if id != "" && NamedLast(before) != "" && id != NamedLast(before) then |before| else LastStart(before)
  }

  /** What the call being written has sent of its arguments. */
  function Current(fs: seq<Fragment>): string {
    Joined(fs[LastStart(fs)..])
  }

  function Label(id: string): string {
    if id == "" then "draft" else id
  }

  lemma {:induction false} PushLast(s: Stream, fs: seq<Fragment>, f: Fragment)
    ensures PushAll(s, fs + [f]) == Push(PushAll(s, fs), f)
    decreases |fs|
  {
    if fs == [] {
      assert fs + [f] == [f] && [f][1..] == [];
    } else {
      assert (fs + [f])[1..] == fs[1..] + [f];
      PushLast(Push(s, fs[0]), fs[1..], f);
    }
  }

  lemma {:induction false} JoinedLast(fs: seq<Fragment>, f: Fragment)
    ensures Joined(fs + [f]) == Joined(fs) + f.delta
  {
    if fs == [] {
      assert fs + [f] == [f] && [f][1..] == [] && f.delta + "" == f.delta;
    } else {
      assert (fs + [f])[1..] == fs[1..] + [f];
      JoinedLast(fs[1..], f);
      Associates(fs[0].delta, Joined(fs[1..]), f.delta);
    }
  }

  lemma StartLast(fs: seq<Fragment>, f: Fragment)
    ensures LastStart(fs + [f]) ==
            if f.callId != "" && NamedLast(fs) != "" && f.callId != NamedLast(fs) then |fs| else LastStart(fs)
    ensures NamedLast(fs + [f]) == if f.callId != "" then f.callId else NamedLast(fs)
  {
    assert (fs + [f])[..|fs|] == fs;
  }

  lemma SliceOf<T>(s: seq<T>, x: T, from: nat, to: nat)
    requires from <= to <= |s|
    ensures (s + [x])[from..to] == s[from..to] && s[from..|s|] == s[from..] && s[|s|..] == []
    ensures (s + [x])[from..] == s[from..] + [x]
  {
  }

  lemma CurrentLast(fs: seq<Fragment>, f: Fragment)
    ensures Current(fs + [f]) == (if LastStart(fs + [f]) == |fs| then "" else Current(fs)) + f.delta
  {
    var at := LastStart(fs + [f]);
    StartLast(fs, f);
    SliceOf(fs, f, at, |fs|);
    JoinedLast(fs[at..], f);
    assert Current(fs + [f]) == Joined(fs[at..]) + f.delta;
  }

  /** Whatever fragments of whatever calls came: the draft is of the call named last, and the client has the
      title and the plan of just those fragments that came since that call was named after another. */
  lemma {:induction false} StreamStandsAt(fs: seq<Fragment>)
    ensures var s := PushAll(UNSEEN, fs);
            && s.draft.callId == NamedLast(fs) && s.draft.arguments == Current(fs)
            && s.title == TitleOf(Current(fs)) && s.shown == PlanOf(Current(fs))
  {
    EmptyIsInStep();
    PushAllKeepsInStep(UNSEEN, fs);
    if fs != [] {
      var before, f := fs[..|fs| - 1], fs[|fs| - 1];
      assert fs == before + [f];
      StreamStandsAt(before);
      PushLast(UNSEEN, before, f);
      StartLast(before, f);
      CurrentLast(before, f);
    }
  }

  lemma EmptyIsInStep()
    ensures InStep(UNSEEN)
  {
    assert PlanOf("") == "" && TitleOf("") == "";
  }

  /** What the client is told after the last fragment: the call named last, or "draft" while none was; the
      title; and what is new of the plan. Nothing is told exactly if neither is. */
  lemma TellsExactly(fs: seq<Fragment>, f: Fragment)
    ensures var now := fs + [f];
            var had := PlanOf(if LastStart(now) == |fs| then "" else Current(fs));
            var hadTitle := TitleOf(if LastStart(now) == |fs| then "" else Current(fs));
            var told := EventOf(Receive(PushAll(UNSEEN, fs).draft, f));
            && had <= PlanOf(Current(now))
            && (told.None? <==> PlanOf(Current(now)) == had && TitleOf(Current(now)) == hadTitle)
            && (told.Some? ==> told.value == DraftEvent(Label(NamedLast(now)), TitleOf(Current(now)), PlanOf(Current(now))[|had|..]))
  {
    var now := fs + [f];
    var had := if LastStart(now) == |fs| then "" else Current(fs);
    StreamStandsAt(fs);
    EmptyIsInStep();
    PushAllKeepsInStep(UNSEEN, fs);
    StartLast(fs, f);
    CurrentLast(fs, f);
    LastStartOfEmpty(fs);
    FieldGrows(had, f.delta, Pattern("plan"));
  }

  lemma LastStartOfEmpty(fs: seq<Fragment>)
    ensures LastStart(fs) < |fs| || fs == []
  {
  }

  // ---------------------------------------------------------------- a client that goes by the id

  /** The last fragment that names another call than the one named before it, or a first one. */
  function LastNaming(fs: seq<Fragment>): (at: nat)
    ensures LastStart(fs) <= at <= |fs|
  {
    if fs == [] then 0
    else
      var before, id := fs[..|fs| - 1], fs[|fs| - 1].callId;
      if id != "" && id != NamedLast(before) then |before| else LastNaming(before)
  }

  /** All the plan text sent under one id. */
  function SentUnder(fs: seq<Fragment>, id: string): string {
    if fs == [] then ""
    else
      var before := fs[..|fs| - 1];
      var told := EventOf(Receive(PushAll(UNSEEN, before).draft, fs[|fs| - 1]));
      SentUnder(before, id) + if told.Some? && told.value.id == id then told.value.append else ""
  }

  lemma SentLast(fs: seq<Fragment>, f: Fragment, id: string)
    ensures var had := PlanOf(if LastStart(fs + [f]) == |fs| then "" else Current(fs));
            && had <= PlanOf(Current(fs + [f]))
            && SentUnder(fs + [f], id) ==
               SentUnder(fs, id) + if id == Label(NamedLast(fs + [f])) then PlanOf(Current(fs + [f]))[|had|..] else ""
  {
    assert (fs + [f])[..|fs|] == fs;
    TellsExactly(fs, f);
  }

  /** What came before the call now being written was named, of its arguments. */
  function Unnamed(fs: seq<Fragment>): string {
    Joined(fs[LastStart(fs)..LastNaming(fs)])
  }

  predicate SentSince(fs: seq<Fragment>) {
    var before, id := fs[..LastNaming(fs)], Label(NamedLast(fs));
    && PlanOf(Unnamed(fs)) <= PlanOf(Current(fs))
    && SentUnder(fs, id) == SentUnder(before, id) + PlanOf(Current(fs))[|PlanOf(Unnamed(fs))|..]
  }

  lemma NamingLast(fs: seq<Fragment>, f: Fragment)
    ensures LastNaming(fs + [f]) == if f.callId != "" && f.callId != NamedLast(fs) then |fs| else LastNaming(fs)
    ensures (fs + [f])[..LastNaming(fs + [f])] == fs[..LastNaming(fs + [f])]
  {
    assert (fs + [f])[..|fs|] == fs;
  }

  lemma UnnamedLast(fs: seq<Fragment>, f: Fragment)
    ensures var start := LastStart(fs + [f]) == |fs|;
            Unnamed(fs + [f]) == if LastNaming(fs + [f]) == |fs| then (if start then "" else Current(fs)) else Unnamed(fs)
  {
    StartLast(fs, f);
    NamingLast(fs, f);
    LastStartOfEmpty(fs);
    SliceOf(fs, f, LastStart(fs + [f]), LastNaming(fs + [f]));
  }

  lemma {:induction false} SentSinceNamed(fs: seq<Fragment>)
    ensures SentSince(fs)
  {
    if fs == [] {
      EmptyIsInStep();
    } else {
      var before, f := fs[..|fs| - 1], fs[|fs| - 1];
      assert fs == before + [f];
      SentSinceNamed(before);
      StartLast(before, f);
      NamingLast(before, f);
      UnnamedLast(before, f);
      LastStartOfEmpty(before);
      SentLast(before, f, Label(NamedLast(fs)));
      if LastNaming(fs) == |before| {
        assert before[..|before|] == before;
      } else {
        SuffixesJoin(PlanOf(Unnamed(before)), PlanOf(Current(before)), PlanOf(Current(fs)));
        Associates(SentUnder(before[..LastNaming(before)], Label(NamedLast(fs))), PlanOf(Current(before))[|PlanOf(Unnamed(before))|..],
                   PlanOf(Current(fs))[|PlanOf(Current(before))|..]);
      }
    }
  }

  lemma SuffixesJoin(a: string, b: string, c: string)
    requires a <= b <= c
    ensures b[|a|..] + c[|b|..] == c[|a|..]
  {
  }

  lemma {:induction false} NoneNamed(fs: seq<Fragment>, id: string)
    requires NamedLast(fs) == ""
    ensures LastStart(fs) == LastNaming(fs) == 0
    ensures SentUnder(fs, id) == if id == "draft" then PlanOf(Joined(fs)) else ""
  {
    EmptyIsInStep();
    if fs != [] {
      var before, f := fs[..|fs| - 1], fs[|fs| - 1];
      assert fs == before + [f];
      NoneNamed(before, id);
      SentLast(before, f, id);
      assert fs[0..] == fs && before[0..] == before;
    }
  }

  lemma {:induction false} NamingIsStart(fs: seq<Fragment>)
    ensures NamedLast(fs[..LastNaming(fs)]) != "" ==> LastStart(fs) == LastNaming(fs)
    ensures NamedLast(fs[..LastNaming(fs)]) == "" ==> LastStart(fs) == 0
  {
    if fs != [] {
      var before, f := fs[..|fs| - 1], fs[|fs| - 1];
      assert fs == before + [f];
      NamingIsStart(before);
      StartLast(before, f);
      NamingLast(before, f);
      if LastNaming(fs) == |before| {
        assert before[..|before|] == before;
        if NamedLast(before) == "" {
          NoneNamed(before, "");
        }
      }
    }
  }

  /** The plan text a client that goes by the id mistakes: what was sent under the same id before another call
      came between, or what came before the call was named. */
  function Mistaken(fs: seq<Fragment>): string {
    var before, id := fs[..LastNaming(fs)], Label(NamedLast(fs));
    if NamedLast(before) != "" then SentUnder(before, id)
    else if id == "draft" then "" else PlanOf(Joined(before))
  }

  /** A client that joins what is sent under one id has the plan of the call being written exactly if nothing is
      mistaken. */
  lemma PlanByIdExactly(fs: seq<Fragment>)
    ensures SentUnder(fs, Label(NamedLast(fs))) == PlanOf(Current(fs)) <==> Mistaken(fs) == ""
  {
    var before, id := fs[..LastNaming(fs)], Label(NamedLast(fs));
    SentSinceNamed(fs);
    NamingIsStart(fs);
    EmptyIsInStep();
    if NamedLast(before) != "" {
      assert fs[LastStart(fs)..LastNaming(fs)] == [];
    } else {
      NoneNamed(before, id);
      assert fs[0..LastNaming(fs)] == before;
    }
    SameWhole(SentUnder(before, id), PlanOf(Unnamed(fs)), PlanOf(Current(fs)));
  }

  lemma SameWhole(a: string, b: string, whole: string)
    requires b <= whole
    ensures a + whole[|b|..] == whole <==> a == b
  {
    assert b + whole[|b|..] == whole;
    if a + whole[|b|..] == whole {
      assert |a| == |b|;
      assert a == whole[..|a|] && b == whole[..|b|];
    }
  }

  lemma SentFirst(f: Fragment)
    requires f.callId != ""
    ensures SentUnder([f], f.callId) == PlanOf(f.delta) && NamedLast([f]) == f.callId
  {
    EmptyIsInStep();
    StartLast([], f);
    CurrentLast([], f);
    SentLast([], f, f.callId);
    assert [] + [f] == [f] && "" + f.delta == f.delta && SentUnder([], f.callId) == "";
  }

  lemma SentAfterOther(fs: seq<Fragment>, f: Fragment, id: string)
    requires f.callId != "" && NamedLast(fs) != "" && f.callId != NamedLast(fs)
    ensures Current(fs + [f]) == f.delta && NamedLast(fs + [f]) == f.callId
    ensures SentUnder(fs + [f], id) == SentUnder(fs, id) + if id == f.callId then PlanOf(f.delta) else ""
  {
    EmptyIsInStep();
    StartLast(fs, f);
    CurrentLast(fs, f);
    SentLast(fs, f, id);
    assert "" + f.delta == f.delta;
  }

  /** A call that sends its plan, and again after another call spoke: the client has the plan twice. */
  lemma PlanIsSentTwice(id: string, other: string, arguments: string)
    requires id != "" && other != "" && id != other && PlanOf(arguments) != ""
    ensures var fs := [Fragment(id, arguments), Fragment(other, ""), Fragment(id, arguments)];
            && SentUnder(fs, id) == PlanOf(arguments) + PlanOf(arguments) && Current(fs) == arguments
  {
    var one, two := [Fragment(id, arguments)], [Fragment(id, arguments), Fragment(other, "")];
    SentFirst(one[0]);
    SentAfterOther(one, Fragment(other, ""), id);
    assert two == one + [Fragment(other, "")] && PlanOf(arguments) + "" == PlanOf(arguments);
    SentAfterOther(two, Fragment(id, arguments), id);
    assert two + [Fragment(id, arguments)] == [Fragment(id, arguments), Fragment(other, ""), Fragment(id, arguments)];
  }

  // ---------------------------------------------------------------- every chunking

  function Joined(fs: seq<Fragment>): string {
    if fs == [] then "" else fs[0].delta + Joined(fs[1..])
  }

  /** Fragments of one call: those that name one name the same. */
  predicate OneCall(fs: seq<Fragment>, id: string) {
    forall i :: 0 <= i < |fs| ==> fs[i].callId == "" || fs[i].callId == id
  }

  lemma {:induction false} ArgumentsAreJoined(s: Stream, fs: seq<Fragment>, id: string)
    requires OneCall(fs, id) && (s.draft.callId == "" || s.draft.callId == id)
    ensures PushAll(s, fs).draft.arguments == s.draft.arguments + Joined(fs)
    decreases |fs|
  {
    if fs == [] {
      assert s.draft.arguments + Joined(fs) == s.draft.arguments;
    } else {
      ArgumentsAreJoined(Push(s, fs[0]), fs[1..], id);
      Associates(s.draft.arguments, fs[0].delta, Joined(fs[1..]));
    }
  }

  /** However a call's arguments are cut into fragments, the client ends up with what reading them
      whole gives. */
  lemma StreamedEqualsWhole(fs: seq<Fragment>, id: string)
    requires OneCall(fs, id)
    ensures PushAll(UNSEEN, fs).shown == PlanOf(Joined(fs))
    ensures PushAll(UNSEEN, fs).title == TitleOf(Joined(fs))
  {
    assert PlanOf("") == "" && TitleOf("") == "";
    PushAllKeepsInStep(UNSEEN, fs);
    ArgumentsAreJoined(UNSEEN, fs, id);
    assert "" + Joined(fs) == Joined(fs);
  }

  /** The fragments bring the first `k` characters of the object. */
  predicate Bring(fs: seq<Fragment>, id: string, o: Object, k: nat) {
    OneCall(fs, id) && k <= |ObjectText(o)| && Joined(fs) == ObjectText(o)[..k]
  }

  /** A call whose arguments are an object with a plan that the search finds: whatever the fragments,
      spacing and escapes, and however much is in, the client has exactly the characters of the plan that
      fully arrived. */
  lemma PlanArrives(fs: seq<Fragment>, id: string, o: Object, i: nat, k: nat)
    requires WellFormedObject(o) && IsField(o, i, "plan") && IsFound(o, i, "plan") && Bring(fs, id, o, k)
    ensures PushAll(UNSEEN, fs).shown == Arrived(o, i, k)
  {
    StreamedEqualsWhole(fs, id);
    FoundFieldIsRead(o, i, "plan");
  }

  /** Whatever the values, the fragments and the cut, the client has what arrived of the plan. */
  ghost predicate ArrivesAlways(o: Object, i: nat)
    requires WellFormedObject(o) && i < |o.members|
  {
    forall vs, fs, id, k: nat :: AreValues(o, vs) && Bring(fs, id, WithValues(o, vs), k) ==> HasArrived(WithValues(o, vs), i, fs, k)
  }

  predicate HasArrived(o: Object, i: nat, fs: seq<Fragment>, k: nat)
    requires i < |o.members|
  {
    WellFormedObject(o) && PushAll(UNSEEN, fs).shown == Arrived(o, i, k)
  }

  /** That holds exactly when the plan's key is written without escapes and no key before it ends with an
      escaped quote and "plan". */
  lemma PlanArrivesExactly(o: Object, i: nat)
    requires WellFormedObject(o) && IsField(o, i, "plan")
    ensures ArrivesAlways(o, i) <==> IsFound(o, i, "plan")
  {
    if IsFound(o, i, "plan") {
      forall vs, fs, id, k: nat | AreValues(o, vs) && Bring(fs, id, WithValues(o, vs), k)
        ensures HasArrived(WithValues(o, vs), i, fs, k)
      {
        ValuesKeepKeys(o, vs, i, "plan");
        PlanArrives(fs, id, WithValues(o, vs), i, k);
      }
    }
    if ArrivesAlways(o, i) {
      forall vs, k: nat | AreValues(o, vs) && k <= |ObjectText(WithValues(o, vs))|
        ensures ShowsAt(WithValues(o, vs), i, k, "plan")
      {
        OneFragment(ObjectText(WithValues(o, vs))[..k]);
        assert Bring([Fragment("", ObjectText(WithValues(o, vs))[..k])], "", WithValues(o, vs), k);
        assert HasArrived(WithValues(o, vs), i, [Fragment("", ObjectText(WithValues(o, vs))[..k])], k);
      }
      CutFieldIsReadExactly(o, i, "plan");
    }
  }

  lemma OneFragment(text: string)
    ensures Joined([Fragment("", text)]) == text && OneCall([Fragment("", text)], "")
    ensures PushAll(UNSEEN, [Fragment("", text)]).shown == PlanOf(text)
  {
    assert text + "" == text && [Fragment("", text)][1..] == [];
    StreamedEqualsWhole([Fragment("", text)], "");
  }
}
