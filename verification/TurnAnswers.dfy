/** What the model is told of its calls: every answer carries what its own call gave, or why it did not
    run, and the images are those of the calls that ran. */
module TurnAnswers {
  import opened Common
  import opened HunkSelection
  import opened ApprovalState
  import opened TurnSpec
  import opened TurnTheorems

  // ---------------------------------------------------------------- what a call is due

  const SHELL_TOOLS := {"bash", "execute", "exec_command", "shell_command", "write_stdin"}
  const WRITING_TOOLS := {"hashline_edit", "str_replace", "edit", "write", "apply_patch", "generate_image"}
  const NETWORK_TOOLS := {"web_fetch", "web_search"}

  /** The mode asks for the tool: by the server's hint where there is one, and otherwise by its name. */
  predicate ModeAsks(mode: ApprovalMode, name: string, readOnlyHint: Option<bool>) {
    match mode
    case FullAccess => false
    case Manual => readOnlyHint.Some? || "mcp__" <= name || name in SHELL_TOOLS + WRITING_TOOLS + NETWORK_TOOLS
    case Plan => readOnlyHint.Some? || "mcp__" <= name || name in SHELL_TOOLS + WRITING_TOOLS + NETWORK_TOOLS
    case _ => if readOnlyHint.Some? then readOnlyHint == Some(false) else "mcp__" <= name || name in SHELL_TOOLS
  }

  /** Nobody had to be asked: the rules let it run, the mode does not ask, the classifier may and does answer
      for the user, or nobody is there to ask. */
  predicate NeedNotAsk(call: ToolCall, c: Circumstance) {
    || c.gate == RunFreely
    || (c.gate == FollowMode && !ModeAsks(c.mode, call.name, c.readOnlyHint))
    || (c.gate != AskUser && c.mode == Auto && call.name in SHELL_TOOLS && c.classifierAllows)
    || !c.handler
  }

  lemma AskedUnlessNeedNot(call: ToolCall, c: Circumstance)
    requires c.gate != Forbid
    ensures MustAsk(call.name, c) && !ClassifiedAllow(call.name, c) && c.handler <==> !NeedNotAsk(call, c)
  {
  }

  function Refusal(reason: string): ToolRun {
    ToolRun(reason, true, None)
  }

  /** What the user's answer leaves of a call. */
  function DueAfterAnswer(call: ToolCall, decision: Decision, run: ToolRun): ToolRun {
    if !decision.allow && decision.deferred.Some? then ToolRun("submitted for confirmation", false, None)
    else if !decision.allow then Refusal("denied by user")
    else if decision.hunks.None? then run
    else
      match EditFiltered(call.name, call.arguments, set id | id in decision.hunks.value)
      case Ok(_) => run
      case Err(e) => Refusal(e)
  }

  /** What the model is to be told: the reason of whatever stopped the call first, or what it gave. */
  function DueRun(call: ToolCall, c: Circumstance): ToolRun {
    if c.planMode && c.refusal.Some? then Refusal(c.refusal.value)
    else if c.hook.Some? then Refusal(c.hook.value)
    else if c.gate == Forbid then Refusal("forbidden")
    else if NeedNotAsk(call, c) then c.run
    else DueAfterAnswer(call, c.decision, c.run)
  }

  datatype Told = Told(callId: string, run: ToolRun)

  function DueAll(trials: seq<Trial>): (due: seq<Told>)
    ensures |due| == |trials|
  {
    seq(|trials|, i requires 0 <= i < |trials| => Told(trials[i].call.id, DueRun(trials[i].call, trials[i].c)))
  }

  /** The images of the calls that ran. */
  function DueImages(ran: seq<Trial>): seq<string> {
    if ran == [] then []
    else (if ran[0].c.run.image.Some? then [ran[0].c.run.image.value] else []) + DueImages(ran[1..])
  }

  // ---------------------------------------------------------------- what is pushed

  function ToldBy(item: Item): seq<Told> {
    if item.CallOutput? then [Told(item.callId, item.output)] else []
  }

  function ToldIn(items: seq<Item>): seq<Told> {
    if items == [] then [] else ToldBy(items[0]) + ToldIn(items[1..])
  }

  function ImageOf(item: Item): seq<string> {
    if item.Image? then [item.image] else []
  }

  function ImagesIn(items: seq<Item>): seq<string> {
    if items == [] then [] else ImageOf(items[0]) + ImagesIn(items[1..])
  }

  /** The calls the model made. */
  function CallIn(item: Item): seq<ToolCall> {
    if item.Output? && item.item.FunctionCall? && item.item.callId.Some?
    then [ToolCall(item.item.callId.value, item.item.name, item.item.arguments)]
    else []
  }

  function CallsIn(items: seq<Item>): seq<ToolCall> {
    if items == [] then [] else CallIn(items[0]) + CallsIn(items[1..])
  }

  function CallsOf(trials: seq<Trial>): (calls: seq<ToolCall>)
    ensures |calls| == |trials|
  {
    seq(|trials|, i requires 0 <= i < |trials| => trials[i].call)
  }

  lemma {:induction false} ToldSplit(a: seq<Item>, b: seq<Item>)
    ensures ToldIn(a + b) == ToldIn(a) + ToldIn(b)
  {
    if a == [] {
      assert a + b == b;
    } else {
      assert (a + b)[1..] == a[1..] + b;
      ToldSplit(a[1..], b);
      Associates(ToldBy(a[0]), ToldIn(a[1..]), ToldIn(b));
    }
  }

  lemma {:induction false} ImagesSplit(a: seq<Item>, b: seq<Item>)
    ensures ImagesIn(a + b) == ImagesIn(a) + ImagesIn(b)
  {
    if a == [] {
      assert a + b == b;
    } else {
      assert (a + b)[1..] == a[1..] + b;
      ImagesSplit(a[1..], b);
      Associates(ImageOf(a[0]), ImagesIn(a[1..]), ImagesIn(b));
    }
  }

  lemma {:induction false} CallsSplit(a: seq<Item>, b: seq<Item>)
    ensures CallsIn(a + b) == CallsIn(a) + CallsIn(b)
  {
    if a == [] {
      assert a + b == b;
    } else {
      assert (a + b)[1..] == a[1..] + b;
      CallsSplit(a[1..], b);
      Associates(CallIn(a[0]), CallsIn(a[1..]), CallsIn(b));
    }
  }

  /** Items without answers, images and calls. */
  lemma {:induction false} NothingIn(items: seq<Item>)
    requires forall i :: 0 <= i < |items| ==> items[i].User? || items[i].Reminder?
    ensures ToldIn(items) == [] && ImagesIn(items) == [] && CallsIn(items) == []
  {
    if items != [] {
      NothingIn(items[1..]);
    }
  }

  lemma {:induction false} OnlyCallsInOutputs(items: seq<OutputItem>)
    ensures ToldIn(Outputs(items)) == [] && ImagesIn(Outputs(items)) == []
  {
    if items != [] {
      assert Outputs(items)[1..] == Outputs(items[1..]);
      OnlyCallsInOutputs(items[1..]);
    }
  }

  /** The requests are the calls of the reply, with their names and arguments. */
  lemma {:induction false} RequestsAreCalls(items: seq<OutputItem>, late: nat)
    requires forall i :: 0 <= i < |FunctionCalls(items)| ==> FunctionCalls(items)[i].FunctionCall?
    requires Requests(FunctionCalls(items), late).Ok?
    ensures Requests(FunctionCalls(items), late).value == CallsIn(Outputs(items))
    decreases |items|
  {
    if items != [] {
      assert Outputs(items)[1..] == Outputs(items[1..]);
      if items[0].FunctionCall? {
        assert FunctionCalls(items)[1..] == FunctionCalls(items[1..]);
        FunctionCallsAreCalls(items[1..]);
        RequestsAreCalls(items[1..], late - 1);
      } else {
        assert FunctionCalls(items) == FunctionCalls(items[1..]);
        RequestsAreCalls(items[1..], late);
      }
    }
  }

  // ---------------------------------------------------------------- one batch

  function ResultTold(r: ToolResult): Told {
    Told(r.call.id, r.run)
  }

  function ResultsTold(results: seq<ToolResult>): (told: seq<Told>)
    ensures |told| == |results|
  {
    seq(|results|, i requires 0 <= i < |results| => ResultTold(results[i]))
  }

  function RoutingTold(r: Routing): Told {
    match r
    case Blocked(result) => ResultTold(result)
    case Stopped(result) => ResultTold(result)
    case Cleared(call, _, run) => Told(call.id, run)
  }

  function RoutingsTold(rs: seq<Routing>): (told: seq<Told>)
    ensures |told| == |rs|
  {
    seq(|rs|, i requires 0 <= i < |rs| => RoutingTold(rs[i]))
  }

  /** Whichever way a call goes, its routing holds what it is due. */
  lemma RouteHoldsDue(call: ToolCall, c: Circumstance)
    ensures RoutingTold(Route(call, c)) == Told(call.id, DueRun(call, c))
    ensures Route(call, c).Cleared? ==> DueRun(call, c) == c.run
    ensures !Route(call, c).Cleared? ==> DueRun(call, c).image == None
  {
    if c.gate != Forbid {
      AskedUnlessNeedNot(call, c);
    }
  }

  predicate AreToldParts(whole: seq<Told>, a: seq<Told>, b: seq<Told>, c: seq<Told>) {
    multiset(whole) == multiset(a) + multiset(b) + multiset(c)
  }

  lemma ToldPartGrows(whole: seq<Told>, a: seq<Told>, b: seq<Told>, c: seq<Told>, x: Told)
    requires AreToldParts(whole, a, b, c)
    ensures AreToldParts([x] + whole, [x] + a, b, c)
    ensures AreToldParts([x] + whole, a, [x] + b, c)
    ensures AreToldParts([x] + whole, a, b, [x] + c)
  {
  }

  lemma {:induction false} RoutesToldPartition(rs: seq<Routing>)
    ensures AreToldParts(RoutingsTold(rs), RoutingsTold(ClearedIn(rs)), ResultsTold(BlockedIn(rs)), ResultsTold(StoppedIn(rs)))
  {
    if rs != [] {
      var rest, x := rs[1..], RoutingTold(rs[0]);
      var cleared, blocked, stopped := ClearedIn(rest), BlockedIn(rest), StoppedIn(rest);
      RoutesToldPartition(rest);
      ToldPartGrows(RoutingsTold(rest), RoutingsTold(cleared), ResultsTold(blocked), ResultsTold(stopped), x);
      RoutingToldFirst(rs[0], rest);
      assert rs == [rs[0]] + rest;
      if rs[0].Cleared? {
        RoutingToldFirst(rs[0], cleared);
      } else if rs[0].Blocked? {
        ResultToldFirst(rs[0].result, blocked);
      } else {
        ResultToldFirst(rs[0].result, stopped);
      }
    }
  }

  lemma RoutingToldFirst(r: Routing, rest: seq<Routing>)
    ensures RoutingsTold([r] + rest) == [RoutingTold(r)] + RoutingsTold(rest)
  {
  }

  lemma ResultToldFirst(r: ToolResult, rest: seq<ToolResult>)
    ensures ResultsTold([r] + rest) == [ResultTold(r)] + ResultsTold(rest)
  {
  }

  lemma ResultsToldSplit(a: seq<ToolResult>, b: seq<ToolResult>)
    ensures ResultsTold(a + b) == ResultsTold(a) + ResultsTold(b)
  {
  }

  /** The results of a batch, in order: those of the calls that ran, then those of the others. */
  lemma BatchSplits(rs: seq<Routing>, completions: seq<nat>) returns (ran: seq<ToolResult>)
    requires BatchResults(rs, completions).Ok?
    ensures Execute(ClearedIn(rs), completions) == Ok(ran)
    ensures BatchResults(rs, completions).value == ran + (BlockedIn(rs) + StoppedIn(rs))
    ensures |ran| == |ClearedIn(rs)|
    ensures forall i :: 0 <= i < |ran| ==> ran[i].call == ClearedIn(rs)[i].call && ran[i].run == ClearedIn(rs)[i].run
    ensures ResultsTold(ran) == RoutingsTold(ClearedIn(rs))
  {
    var cleared := ClearedIn(rs);
    ran := Execute(cleared, completions).value;
    RunInOrderLength(cleared, Partials(cleared));
    forall i | 0 <= i < |ran| ensures ran[i].call == cleared[i].call && ran[i].run == cleared[i].run {
      InOrderSummaries(cleared, Partials(cleared), i);
    }
    assert forall i :: 0 <= i < |ran| ==> ResultsTold(ran)[i] == RoutingsTold(cleared)[i];
  }

  lemma BatchToldIsDue(calls: seq<ToolCall>, cs: seq<Circumstance>, completions: seq<nat>)
    requires |cs| >= |calls| && BatchResults(Routes(calls, cs), completions).Ok?
    ensures multiset(ResultsTold(BatchResults(Routes(calls, cs), completions).value)) == multiset(DueAll(Trials(calls, cs)))
  {
    var rs := Routes(calls, cs);
    var ran := BatchSplits(rs, completions);
    RoutesToldPartition(rs);
    ResultsToldSplit(ran, BlockedIn(rs) + StoppedIn(rs));
    ResultsToldSplit(BlockedIn(rs), StoppedIn(rs));
    forall i | 0 <= i < |calls| ensures RoutingTold(rs[i]) == DueAll(Trials(calls, cs))[i] {
      RouteHoldsDue(calls[i], cs[i]);
    }
    assert RoutingsTold(rs) == DueAll(Trials(calls, cs));
  }

  lemma {:induction false} PushedAnswers(results: seq<ToolResult>)
    ensures ToldIn(OutputItems(results)) == ResultsTold(results) && ImagesIn(OutputItems(results)) == []
    ensures CallsIn(OutputItems(results)) == []
  {
    if results != [] {
      assert OutputItems(results)[1..] == OutputItems(results[1..]);
      PushedAnswers(results[1..]);
      ResultToldFirst(results[0], results[1..]);
      assert results == [results[0]] + results[1..];
    }
  }

  function ResultImages(results: seq<ToolResult>): seq<string> {
    if results == [] then []
    else (if results[0].run.image.Some? then [results[0].run.image.value] else []) + ResultImages(results[1..])
  }

  lemma {:induction false} PushedImages(results: seq<ToolResult>)
    ensures ImagesIn(ImageItems(results)) == ResultImages(results)
    ensures ToldIn(ImageItems(results)) == [] && CallsIn(ImageItems(results)) == []
  {
    if results != [] {
      PushedImages(results[1..]);
      var first := if results[0].run.image.Some? then [Image(results[0].run.image.value)] else [];
      ImagesSplit(first, ImageItems(results[1..]));
      ToldSplit(first, ImageItems(results[1..]));
      CallsSplit(first, ImageItems(results[1..]));
      assert first != [] ==> first[1..] == [];
    }
  }

  lemma {:induction false} ImagesOfTold(a: seq<ToolResult>, b: seq<ToolResult>)
    requires forall i :: 0 <= i < |b| ==> b[i].run.image.None?
    ensures ResultImages(a + b) == ResultImages(a)
  {
    if a != [] {
      assert (a + b)[1..] == a[1..] + b;
      ImagesOfTold(a[1..], b);
    } else if b != [] {
      assert a + b == b;
      ImagesOfTold([], b[1..]);
      assert [] + b[1..] == b[1..];
    } else {
      assert a + b == [];
    }
  }

  lemma {:induction false} UnclearedHaveNoImages(calls: seq<ToolCall>, cs: seq<Circumstance>)
    requires |cs| >= |calls|
    ensures var rs := Routes(calls, cs);
            && (forall i :: 0 <= i < |BlockedIn(rs)| ==> BlockedIn(rs)[i].run.image.None?)
            && forall i :: 0 <= i < |StoppedIn(rs)| ==> StoppedIn(rs)[i].run.image.None?
  {
    if calls != [] {
      UnclearedHaveNoImages(calls[1..], cs[1..]);
      assert Routes(calls, cs)[1..] == Routes(calls[1..], cs[1..]);
      RouteHoldsDue(calls[0], cs[0]);
    }
  }

  lemma {:induction false} RanImages(ran: seq<ToolResult>, trials: seq<Trial>)
    requires |ran| == |trials| && forall i :: 0 <= i < |ran| ==> ran[i].run == trials[i].c.run
    ensures ResultImages(ran) == DueImages(trials)
  {
    if ran != [] {
      RanImages(ran[1..], trials[1..]);
    }
  }

  lemma BatchImagesAreDue(calls: seq<ToolCall>, cs: seq<Circumstance>, completions: seq<nat>)
    requires |cs| >= |calls| && BatchResults(Routes(calls, cs), completions).Ok?
    ensures ResultImages(BatchResults(Routes(calls, cs), completions).value) == DueImages(Started(calls, cs))
  {
    var rs := Routes(calls, cs);
    var ran := BatchSplits(rs, completions);
    UnclearedHaveNoImages(calls, cs);
    ImagesOfTold(ran, BlockedIn(rs) + StoppedIn(rs));
    StartedAreCleared(calls, cs);
    forall i | 0 <= i < |ran| ensures ran[i].run == Started(calls, cs)[i].c.run {
      assert ResultsTold(ran)[i] == RoutingsTold(ClearedIn(rs))[i];
      RouteKeepsCall(Started(calls, cs)[i].call, Started(calls, cs)[i].c);
    }
    RanImages(ran, Started(calls, cs));
  }

  lemma PushedTells(results: seq<ToolResult>)
    ensures var pushed := OutputItems(results) + ImageItems(results);
            ToldIn(pushed) == ResultsTold(results) && ImagesIn(pushed) == ResultImages(results) && CallsIn(pushed) == []
  {
    PushedAnswers(results);
    PushedImages(results);
    ToldSplit(OutputItems(results), ImageItems(results));
    ImagesSplit(OutputItems(results), ImageItems(results));
    CallsSplit(OutputItems(results), ImageItems(results));
    assert ResultsTold(results) + [] == ResultsTold(results);
    assert [] + ResultImages(results) == ResultImages(results);
  }

  lemma PushedInOrder(results: seq<ToolResult>)
    ensures var pushed := OutputItems(results) + ImageItems(results);
            forall i :: 0 <= i < |pushed| ==> if i < |results| then pushed[i].CallOutput? else pushed[i].Image?
  {
    ImageItemsAreImages(results);
  }

  /** What a batch pushes: first an answer for each call, with what that very call is due, and then the
      images of the calls that ran, in their order. */
  lemma BatchTellsItsCalls(t: Turn, calls: seq<ToolCall>, cs: seq<Circumstance>, completions: seq<nat>) returns (pushed: seq<Item>)
    requires |cs| >= |calls| && BatchResults(Routes(calls, cs), completions).Ok?
    ensures FinishBatch(t, Routes(calls, cs), completions).turn == t.(input := t.input + pushed)
    ensures multiset(ToldIn(pushed)) == multiset(DueAll(Trials(calls, cs))) && ImagesIn(pushed) == DueImages(Started(calls, cs))
    ensures CallsIn(pushed) == [] && |pushed| >= |calls|
    ensures forall i :: 0 <= i < |pushed| ==> if i < |calls| then pushed[i].CallOutput? else pushed[i].Image?
  {
    var results := BatchResults(Routes(calls, cs), completions).value;
    pushed := OutputItems(results) + ImageItems(results);
    BatchCounts(calls, cs, completions);
    BatchToldIsDue(calls, cs, completions);
    BatchImagesAreDue(calls, cs, completions);
    PushedTells(results);
    PushedInOrder(results);
  }

  /** The part of a call that was approved, where it was a part. */
  function DuePartial(trial: Trial): Option<Partial> {
    if NeedNotAsk(trial.call, trial.c) || trial.c.decision.hunks.None? then None
    else
      match EditFiltered(trial.call.name, trial.call.arguments, set id | id in trial.c.decision.hunks.value)
      case Ok(f) => Some(Partial(f.applied, f.rejected))
      case Err(_) => None
  }

  lemma ClearedHoldsPartial(call: ToolCall, c: Circumstance)
    requires Route(call, c).Cleared?
    ensures Route(call, c).partial == DuePartial(Trial(call, c)) && Route(call, c).call.id == call.id && Route(call, c).run == c.run
  {
    AskedUnlessNeedNot(call, c);
  }

  /** The answer of a call that ran, with its own summary. */
  predicate TellsPart(item: Item, trial: Trial) {
    item == CallOutput(trial.call.id, trial.c.run, DuePartial(trial))
  }

  lemma {:induction false} OthersHaveNoSummary(rs: seq<Routing>)
    requires forall i :: 0 <= i < |rs| && !rs[i].Cleared? ==> rs[i].result.summary.None?
    ensures forall i :: 0 <= i < |BlockedIn(rs)| ==> BlockedIn(rs)[i].summary.None?
    ensures forall i :: 0 <= i < |StoppedIn(rs)| ==> StoppedIn(rs)[i].summary.None?
  {
    if rs != [] {
      OthersHaveNoSummary(rs[1..]);
    }
  }

  /** Of the calls that ran the model is told, in their order, what part of that very call was approved, exactly
      when none of them that was approved in part has an earlier one with its id. Of no other call is it
      told of a part. */
  lemma PartsAreToldExactly(t: Turn, calls: seq<ToolCall>, cs: seq<Circumstance>, completions: seq<nat>)
    returns (pushed: seq<Item>, ran: seq<Trial>)
    requires |cs| >= |calls| && BatchResults(Routes(calls, cs), completions).Ok?
    ensures FinishBatch(t, Routes(calls, cs), completions).turn == t.(input := t.input + pushed)
    ensures ran == Started(calls, cs) && |ran| <= |calls| <= |pushed|
    ensures (forall i :: 0 <= i < |ran| ==> TellsPart(pushed[i], ran[i])) <==> NoLaterPart(ClearedIn(Routes(calls, cs)))
    ensures forall i :: |ran| <= i < |calls| ==> pushed[i].CallOutput? && pushed[i].summary.None?
  {
    var results := BatchResults(Routes(calls, cs), completions).value;
    pushed, ran := OutputItems(results) + ImageItems(results), Started(calls, cs);
    var done, others := PartsOfBatch(calls, cs, completions);
    BatchCounts(calls, cs, completions);
    SummariesAreOwnExactly(calls, cs, completions);
    PartsOfRan(ran, ClearedIn(Routes(calls, cs)), done);
    PartsArePushed(done, others);
    ItemsTellParts(pushed, done, ran);
  }

  lemma ItemsTellParts(pushed: seq<Item>, done: seq<ToolResult>, ran: seq<Trial>)
    requires |ran| == |done| <= |pushed|
    requires forall i :: 0 <= i < |done| ==> pushed[i] == OutputOf(done[i])
    ensures (forall i :: 0 <= i < |ran| ==> TellsPart(pushed[i], ran[i])) <==> forall i :: 0 <= i < |ran| ==> TellsPart(OutputOf(done[i]), ran[i])
  {
  }

  function OutputOf(r: ToolResult): Item {
    CallOutput(r.call.id, r.run, r.summary)
  }

  lemma PartsArePushed(done: seq<ToolResult>, others: seq<ToolResult>)
    requires forall i :: 0 <= i < |others| ==> others[i].summary.None?
    ensures var results := done + others;
            var pushed := OutputItems(results) + ImageItems(results);
            && (forall i :: 0 <= i < |done| ==> pushed[i] == OutputOf(done[i]))
            && forall i :: |done| <= i < |results| ==> pushed[i].CallOutput? && pushed[i].summary.None?
  {
  }

  lemma PartsOfBatch(calls: seq<ToolCall>, cs: seq<Circumstance>, completions: seq<nat>)
    returns (done: seq<ToolResult>, others: seq<ToolResult>)
    requires |cs| >= |calls| && BatchResults(Routes(calls, cs), completions).Ok?
    ensures var rs, ran := Routes(calls, cs), Started(calls, cs);
            && BatchResults(rs, completions).value == done + others && Execute(ClearedIn(rs), completions) == Ok(done)
            && |ran| == |ClearedIn(rs)| == |done|
            && (forall i :: 0 <= i < |ran| ==> ClearedIn(rs)[i] == Route(ran[i].call, ran[i].c))
            && forall i :: 0 <= i < |ran| ==> done[i].call == ClearedIn(rs)[i].call && done[i].run == ClearedIn(rs)[i].run
    ensures forall i :: 0 <= i < |others| ==> others[i].summary.None?
  {
    var rs := Routes(calls, cs);
    done := BatchSplits(rs, completions);
    others := BlockedIn(rs) + StoppedIn(rs);
    StartedAreCleared(calls, cs);
    OthersHaveNoSummary(rs);
  }

  lemma PartsOfRan(ran: seq<Trial>, cleared: seq<Routing>, done: seq<ToolResult>)
    requires AllCleared(cleared) && |ran| == |cleared| == |done|
    requires forall i :: 0 <= i < |ran| ==> cleared[i] == Route(ran[i].call, ran[i].c)
    requires forall i :: 0 <= i < |ran| ==> done[i].call == cleared[i].call && done[i].run == cleared[i].run
    ensures OwnSummaries(cleared, done) <==>
            forall i :: 0 <= i < |ran| ==> TellsPart(OutputOf(done[i]), ran[i])
  {
    forall i | 0 <= i < |ran|
      ensures cleared[i].partial == DuePartial(ran[i]) && cleared[i].call.id == ran[i].call.id && cleared[i].run == ran[i].c.run
    {
      ClearedHoldsPartial(ran[i].call, ran[i].c);
    }
  }

  // ---------------------------------------------------------------- a whole turn

  /** The conversation since `start`: its calls are those tried, its answers what they are due, and its
      images those of the calls that ran. */
  predicate TellsTruly(start: Turn, t: Turn) {
    && |start.tried| <= |t.tried| && |start.ran| <= |t.ran|
    && var tried, ran := t.tried[|start.tried|..], t.ran[|start.ran|..];
       && CallsIn(t.input) == CallsIn(start.input) + CallsOf(tried)
       && multiset(ToldIn(t.input)) == multiset(ToldIn(start.input)) + multiset(DueAll(tried))
       && ImagesIn(t.input) == ImagesIn(start.input) + DueImages(ran)
  }

  lemma {:induction false} DueImagesSplit(a: seq<Trial>, b: seq<Trial>)
    ensures DueImages(a + b) == DueImages(a) + DueImages(b)
  {
    if a == [] {
      assert a + b == b;
    } else {
      assert (a + b)[1..] == a[1..] + b;
      DueImagesSplit(a[1..], b);
    }
  }

  lemma TrialsSplit(a: seq<Trial>, b: seq<Trial>)
    ensures CallsOf(a + b) == CallsOf(a) + CallsOf(b)
    ensures multiset(DueAll(a + b)) == multiset(DueAll(a)) + multiset(DueAll(b))
  {
    assert DueAll(a + b) == DueAll(a) + DueAll(b);
  }

  lemma TailsJoin(s: seq<Trial>, t: seq<Trial>, u: seq<Trial>)
    requires s <= t <= u
    ensures s <= u && u[|s|..] == t[|s|..] + u[|t|..]
  {
  }

  lemma TellsOn(s: Turn, t: Turn, u: Turn)
    requires TellsTruly(s, t) && TellsTruly(t, u) && s.tried <= t.tried <= u.tried && s.ran <= t.ran <= u.ran
    ensures TellsTruly(s, u)
  {
    var a, b := t.tried[|s.tried|..], u.tried[|t.tried|..];
    var c, d := t.ran[|s.ran|..], u.ran[|t.ran|..];
    TailsJoin(s.tried, t.tried, u.tried);
    TailsJoin(s.ran, t.ran, u.ran);
    TrialsSplit(a, b);
    DueImagesSplit(c, d);
    Associates(CallsIn(s.input), CallsOf(a), CallsOf(b));
    Associates(ImagesIn(s.input), DueImages(c), DueImages(d));
  }

  lemma PrefixOn(a: seq<Trial>, b: seq<Trial>)
    ensures a <= a + b && (a + b)[|a|..] == b
  {
  }

  lemma TextTellsTruly(t: Turn, u: Turn, items: seq<Item>)
    requires u == t.(input := t.input + items, empties := u.empties, requests := u.requests)
    requires ToldIn(items) == [] && ImagesIn(items) == [] && CallsIn(items) == []
    ensures TellsTruly(t, u)
  {
    ToldSplit(t.input, items);
    ImagesSplit(t.input, items);
    CallsSplit(t.input, items);
    assert CallsOf([]) == [] && DueAll([]) == [];
  }

  lemma CallsTellTruly(cfg: Config, t: Turn, items: seq<OutputItem>, r: Reply)
    requires FunctionCalls(items) != []
    requires Answered(cfg, t, items, r).Ended? ==> Answered(cfg, t, items, r).result.Ok?
    ensures var u := Answered(cfg, t, items, r).turn;
            TellsTruly(t, u) && t.tried <= u.tried && t.ran <= u.ran
  {
    var requests, v := CallsAreTried(cfg, t, items, r);
    var pushed := BatchTellsItsCalls(v, requests, r.circumstances, r.completions);
    PrefixOn(t.tried, Trials(requests, r.circumstances));
    PrefixOn(t.ran, Started(requests, r.circumstances));
    RequestsAreCalls(items, r.late);
    OnlyCallsInOutputs(items);
    ToldPushed(t.input, Outputs(items), pushed);
    ImagesPushed(t.input, Outputs(items), pushed);
    CallsPushed(t.input, Outputs(items), pushed);
    assert CallsOf(Trials(requests, r.circumstances)) == requests;
  }

  lemma ToldPushed(input: seq<Item>, outputs: seq<Item>, pushed: seq<Item>)
    requires ToldIn(outputs) == []
    ensures ToldIn(input + outputs + pushed) == ToldIn(input) + ToldIn(pushed)
  {
    ToldSplit(input, outputs);
    ToldSplit(input + outputs, pushed);
    assert ToldIn(input) + [] == ToldIn(input);
  }

  lemma ImagesPushed(input: seq<Item>, outputs: seq<Item>, pushed: seq<Item>)
    requires ImagesIn(outputs) == []
    ensures ImagesIn(input + outputs + pushed) == ImagesIn(input) + ImagesIn(pushed)
  {
    ImagesSplit(input, outputs);
    ImagesSplit(input + outputs, pushed);
    assert ImagesIn(input) + [] == ImagesIn(input);
  }

  lemma CallsPushed(input: seq<Item>, outputs: seq<Item>, pushed: seq<Item>)
    requires CallsIn(pushed) == []
    ensures CallsIn(input + outputs + pushed) == CallsIn(input) + CallsIn(outputs)
  {
    CallsSplit(input, outputs);
    CallsSplit(input + outputs, pushed);
    assert CallsIn(input) + CallsIn(outputs) + [] == CallsIn(input) + CallsIn(outputs);
  }

  lemma {:induction false} NoCallsInText(items: seq<OutputItem>)
    requires FunctionCalls(items) == []
    ensures CallsIn(Outputs(items)) == []
  {
    if items != [] {
      assert Outputs(items)[1..] == Outputs(items[1..]);
      NoCallsInText(items[1..]);
    }
  }

  lemma NoCallsTellNothing(items: seq<OutputItem>)
    requires FunctionCalls(items) == []
    ensures ToldIn(Outputs(items)) == [] && ImagesIn(Outputs(items)) == [] && CallsIn(Outputs(items)) == []
    ensures ToldIn(Outputs(items) + [Reminder]) == [] && ImagesIn(Outputs(items) + [Reminder]) == []
    ensures CallsIn(Outputs(items) + [Reminder]) == []
  {
    NoCallsInText(items);
    OnlyCallsInOutputs(items);
    NothingIn([Reminder]);
    ToldSplit(Outputs(items), [Reminder]);
    ImagesSplit(Outputs(items), [Reminder]);
    CallsSplit(Outputs(items), [Reminder]);
  }

  lemma TextIsTold(cfg: Config, t: Turn, items: seq<OutputItem>, r: Reply) returns (u: Turn)
    requires FunctionCalls(items) == []
    ensures u == Answered(cfg, t, items, r).turn && u.tried == t.tried && u.ran == t.ran && TellsTruly(t, u)
  {
    u := Answered(cfg, t, items, r).turn;
    NoCallsTellNothing(items);
    Associates(t.input, Outputs(items), [Reminder]);
    TextTellsTruly(t, u, if Answered(cfg, t, items, r).Going? then Outputs(items) + [Reminder] else Outputs(items));
  }

  lemma RequestTellsTruly(cfg: Config, t: Turn, r: Reply)
    requires OneRequest(cfg, t, r).Ended? ==> OneRequest(cfg, t, r).result.Ok?
    ensures var u := OneRequest(cfg, t, r).turn;
            TellsTruly(t, u) && t.tried <= u.tried && t.ran <= u.ran
  {
    var u := RequestIsAnswered(cfg, t, r);
    var items := r.answer.value;
    NothingIn(Users(r.steered));
    TextTellsTruly(t, u, Users(r.steered));
    if FunctionCalls(items) == [] {
      var v := TextIsTold(cfg, u, items, r);
      TellsOn(t, u, v);
    } else {
      CallsTellTruly(cfg, u, items, r);
      TellsOn(t, u, OneRequest(cfg, t, r).turn);
    }
  }

  /** At every request of every turn, and when it ends well: the calls the model made since the start are those
      that were tried, each was answered once with what that very call gave or why it did not run, and the
      images it was shown are those of the calls that ran, in order. */
  lemma {:induction false} EveryAnswerIsItsCalls(cfg: Config, t: Turn, script: seq<Reply>)
    requires RunTurn(cfg, t, script).Ended? ==> RunTurn(cfg, t, script).result.Ok?
    ensures var u := RunTurn(cfg, t, script).turn;
            TellsTruly(t, u) && t.tried <= u.tried && t.ran <= u.ran
    decreases |script|
  {
    if script == [] {
      TextTellsTruly(t, t, []);
    } else {
      var u := OneRequest(cfg, t, script[0]).turn;
      RequestTellsTruly(cfg, t, script[0]);
      if OneRequest(cfg, t, script[0]).Going? {
        EveryAnswerIsItsCalls(cfg, u, script[1..]);
        TellsOn(t, u, RunTurn(cfg, t, script).turn);
      }
    }
  }

  // ---------------------------------------------------------------- what is said

  predicate IsSaid(item: Item) {
    item.User? || item.Output?
  }

  /** The user's messages and what the model wrote. */
  function Said(items: seq<Item>): seq<Item> {
    if items == [] then [] else (if IsSaid(items[0]) then [items[0]] else []) + Said(items[1..])
  }

  /** What one request adds of that: the messages steered in before it, and the reply. */
  function SaidBy(r: Reply): seq<Item> {
    if r.answer.Err? then Users(r.steered) else Users(r.steered) + Outputs(r.answer.value)
  }

  function SaidByAll(script: seq<Reply>): seq<Item> {
    if script == [] then [] else SaidBy(script[0]) + SaidByAll(script[1..])
  }

  lemma {:induction false} SaidSplit(a: seq<Item>, b: seq<Item>)
    ensures Said(a + b) == Said(a) + Said(b)
  {
    if a == [] {
      assert a + b == b;
    } else {
      assert (a + b)[1..] == a[1..] + b;
      SaidSplit(a[1..], b);
      Associates(if IsSaid(a[0]) then [a[0]] else [], Said(a[1..]), Said(b));
    }
  }

  lemma {:induction false} AllSaid(items: seq<Item>)
    requires forall i :: 0 <= i < |items| ==> IsSaid(items[i])
    ensures Said(items) == items
  {
    if items != [] {
      AllSaid(items[1..]);
    }
  }

  lemma {:induction false} NoneSaid(items: seq<Item>)
    requires forall i :: 0 <= i < |items| ==> !IsSaid(items[i])
    ensures Said(items) == []
  {
    if items != [] {
      NoneSaid(items[1..]);
    }
  }

  /** The items a request adds: what is said, and then what the engine adds to it. */
  predicate Adds(before: seq<Item>, after: seq<Item>, said: seq<Item>) {
    |before| + |said| <= |after| && after[..|before| + |said|] == before + said
    && forall i :: |before| + |said| <= i < |after| ==> !IsSaid(after[i])
  }

  lemma AddsSaid(before: seq<Item>, after: seq<Item>, said: seq<Item>)
    requires Adds(before, after, said) && forall i :: 0 <= i < |said| ==> IsSaid(said[i])
    ensures before <= after && Said(after) == Said(before) + said
  {
    var n := |before| + |said|;
    assert after == before + said + after[n..];
    SaidSplit(before + said, after[n..]);
    SaidSplit(before, said);
    AllSaid(said);
    NoneSaid(after[n..]);
  }

  lemma AnswerAdds(cfg: Config, t: Turn, items: seq<OutputItem>, r: Reply)
    requires Answered(cfg, t, items, r).Ended? ==> Answered(cfg, t, items, r).result.Ok?
    ensures Adds(t.input, Answered(cfg, t, items, r).turn.input, Outputs(items))
  {
    if FunctionCalls(items) != [] {
      var requests, v := CallsAreTried(cfg, t, items, r);
      var pushed := BatchTellsItsCalls(v, requests, r.circumstances, r.completions);
      PushedAdds(t.input, Outputs(items), pushed, |requests|);
    }
  }

  lemma PushedAdds(input: seq<Item>, said: seq<Item>, pushed: seq<Item>, n: nat)
    requires forall i :: 0 <= i < |pushed| ==> if i < n then pushed[i].CallOutput? else pushed[i].Image?
    ensures Adds(input, input + said + pushed, said)
  {
    assert (input + said + pushed)[..|input| + |said|] == input + said;
  }

  lemma RequestAdds(cfg: Config, t: Turn, r: Reply)
    requires OneRequest(cfg, t, r).Ended? ==> OneRequest(cfg, t, r).result.Ok?
    ensures Adds(t.input, OneRequest(cfg, t, r).turn.input, SaidBy(r))
  {
    var u := RequestIsAnswered(cfg, t, r);
    AnswerAdds(cfg, u, r.answer.value, r);
    Associates(t.input, Users(r.steered), Outputs(r.answer.value));
  }

  /** At every request of every turn: the conversation before stays as it was, and behind it stand every message
      steered in and everything the model wrote, in order and once. */
  lemma {:induction false} NothingSaidIsLost(cfg: Config, t: Turn, script: seq<Reply>)
    requires RunTurn(cfg, t, script).Going?
    ensures var u := RunTurn(cfg, t, script).turn;
            t.input <= u.input && Said(u.input) == Said(t.input) + SaidByAll(script)
    decreases |script|
  {
    if script != [] {
      var u := OneRequest(cfg, t, script[0]).turn;
      RequestAdds(cfg, t, script[0]);
      AddsSaid(t.input, u.input, SaidBy(script[0]));
      NothingSaidIsLost(cfg, u, script[1..]);
      Associates(Said(t.input), SaidBy(script[0]), SaidByAll(script[1..]));
    }
  }

  // ---------------------------------------------------------------- when a turn goes on

  predicate DeliversPlan(name: string, run: ToolRun) {
    name == "propose_plan" && !run.isError
  }

  predicate RoutingDelivers(r: Routing) {
    if r.Cleared? then DeliversPlan(r.call.name, r.run) else DeliversPlan(r.result.call.name, r.result.run)
  }

  predicate AnyDelivers(rs: seq<Routing>) {
    exists i :: 0 <= i < |rs| && RoutingDelivers(rs[i])
  }

  lemma FirstDelivers(r: Routing, rest: seq<Routing>)
    ensures AnyDelivers([r] + rest) <==> RoutingDelivers(r) || AnyDelivers(rest)
  {
    if RoutingDelivers(r) {
      assert RoutingDelivers(([r] + rest)[0]);
    }
    if i :| 0 <= i < |rest| && RoutingDelivers(rest[i]) {
      assert RoutingDelivers(([r] + rest)[i + 1]);
    }
  }

  lemma EitherDelivers(a: seq<ToolResult>, b: seq<ToolResult>)
    ensures PlanDelivered(a + b) <==> PlanDelivered(a) || PlanDelivered(b)
  {
    if i :| 0 <= i < |a| && a[i].call.name == "propose_plan" && !a[i].run.isError {
      assert (a + b)[i] == a[i];
    }
    if i :| 0 <= i < |b| && b[i].call.name == "propose_plan" && !b[i].run.isError {
      assert (a + b)[|a| + i] == b[i];
    }
  }

  lemma OneDelivers(r: ToolResult)
    ensures PlanDelivered([r]) <==> DeliversPlan(r.call.name, r.run)
  {
    assert [r][0] == r;
  }

  lemma {:induction false} DeliveredInParts(rs: seq<Routing>)
    ensures AnyDelivers(rs) <==> AnyDelivers(ClearedIn(rs)) || PlanDelivered(BlockedIn(rs)) || PlanDelivered(StoppedIn(rs))
  {
    if rs != [] {
      var rest := rs[1..];
      DeliveredInParts(rest);
      assert rs == [rs[0]] + rest;
      FirstDelivers(rs[0], rest);
      if rs[0].Cleared? {
        FirstDelivers(rs[0], ClearedIn(rest));
      } else {
        OneDelivers(rs[0].result);
        EitherDelivers([rs[0].result], if rs[0].Blocked? then BlockedIn(rest) else StoppedIn(rest));
      }
    }
  }

  lemma RanDelivers(ran: seq<ToolResult>, cleared: seq<Routing>)
    requires AllCleared(cleared) && |ran| == |cleared|
    requires forall i :: 0 <= i < |ran| ==> ran[i].call == cleared[i].call && ran[i].run == cleared[i].run
    ensures PlanDelivered(ran) <==> AnyDelivers(cleared)
  {
    if i :| 0 <= i < |cleared| && RoutingDelivers(cleared[i]) {
      assert ran[i].run == cleared[i].run;
    }
  }

  predicate DueToDeliver(call: ToolCall, c: Circumstance) {
    DeliversPlan(call.name, DueRun(call, c))
  }

  lemma RouteDelivers(call: ToolCall, c: Circumstance)
    ensures RoutingDelivers(Route(call, c)) <==> DueToDeliver(call, c)
  {
    RouteHoldsDue(call, c);
  }

  /** After a batch the turn ends exactly if one of its calls delivered the plan. */
  lemma PlanEndsTheTurn(t: Turn, calls: seq<ToolCall>, cs: seq<Circumstance>, completions: seq<nat>)
    requires |cs| >= |calls| && BatchResults(Routes(calls, cs), completions).Ok?
    ensures FinishBatch(t, Routes(calls, cs), completions).Ended? <==>
            exists i :: 0 <= i < |calls| && DueToDeliver(calls[i], cs[i])
  {
    var rs := Routes(calls, cs);
    var ran := BatchSplits(rs, completions);
    EitherDelivers(ran, BlockedIn(rs) + StoppedIn(rs));
    EitherDelivers(BlockedIn(rs), StoppedIn(rs));
    RanDelivers(ran, ClearedIn(rs));
    DeliveredInParts(rs);
    forall i | 0 <= i < |calls| ensures RoutingDelivers(rs[i]) <==> DueToDeliver(calls[i], cs[i]) {
      RouteDelivers(calls[i], cs[i]);
    }
  }

  /** Below the largest number a batch is refused exactly if it would pass the budget. */
  lemma BudgetStopsExactly(cfg: Config, executed: nat, requested: nat)
    requires executed + requested <= U64_MAX
    ensures OverBudget(cfg, executed, requested) <==> cfg.maxToolCalls.Some? && executed + requested > cfg.maxToolCalls.value
  {
  }

  /** A request is made exactly if time is left and the turn has not outgrown its room; otherwise the turn ends
      as it stands. A turn without headroom is never handed back. */
  lemma AsksTheModelExactly(cfg: Config, t: Turn, r: Reply)
    ensures var p := OneRequest(cfg, t, r);
            && (p.turn.requests == t.requests + 1 <==> !r.timedOut && (cfg.headroom == 0 || r.grown <= cfg.headroom))
            && (p.turn.requests != t.requests + 1 ==> p.Ended? && p.turn == t && p.result.Err?)
  {
    if r.answer.Ok? {
      CountsOneRequest(cfg, t.(input := t.input + Users(r.steered), requests := t.requests + 1), r.answer.value, r);
    }
  }

  lemma CountsOneRequest(cfg: Config, t: Turn, items: seq<OutputItem>, r: Reply)
    ensures Answered(cfg, t, items, r).turn.requests == t.requests
  {
  }

  /** The calls of a reply are taken up exactly if all have an id and the deadline has not passed. */
  lemma {:induction false} RequestsExactly(calls: seq<OutputItem>, late: nat)
    requires forall i :: 0 <= i < |calls| ==> calls[i].FunctionCall?
    ensures Requests(calls, late).Ok? <==> |calls| <= late && forall i :: 0 <= i < |calls| ==> calls[i].callId.Some?
    decreases |calls|
  {
    if calls != [] && late > 0 {
      RequestsExactly(calls[1..], late - 1);
    }
  }

  /** A reply without calls lets the turn go on, with a reminder, exactly if it says nothing and at most one
      such reply was passed over since the last call. */
  lemma EmptyRepliesExactly(cfg: Config, t: Turn, items: seq<OutputItem>, r: Reply)
    requires FunctionCalls(items) == []
    ensures var p := Answered(cfg, t, items, r);
            && (p.Going? <==> t.empties < 2 && forall i :: 0 <= i < |items| ==> items[i].Text? && Trim(items[i].text) == "")
            && (p.Going? ==> p.turn == t.(input := t.input + Outputs(items) + [Reminder], empties := t.empties + 1))
            && (p.Ended? ==> p.result == Ok(()) && p.turn == t.(input := t.input + Outputs(items)))
  {
    var u := t.(input := t.input + Outputs(items));
    assert Answered(cfg, t, items, r) == WithoutCalls(u, items);
  }

  /** No call that changes something is ever run beside another. */
  lemma ParallelCallsChangeNothing(cleared: seq<Routing>, i: nat)
    requires AllCleared(cleared) && RunsParallel(cleared) && i < |cleared|
    ensures !RequiresApproval(Manual, cleared[i].call.name)
  {
    assert IsParallelSafe(cleared[i].call.name);
    assert "mcp__"[0] == 'm';
  }
}
