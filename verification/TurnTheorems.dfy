/** What every turn keeps: each call is answered exactly once before the next request, images never come
    between answers, only cleared calls run, and the budget bounds the turn. */
module TurnTheorems {
  import opened Common
  import opened HunkSelection
  import opened ApprovalState
  import opened TurnSpec

  // ---------------------------------------------------------------- ids

  function CallIdOf(item: Item): seq<string> {
    if item.Output? && item.item.FunctionCall? && item.item.callId.Some? then [item.item.callId.value] else []
  }

  function CallIds(items: seq<Item>): seq<string> {
    if items == [] then [] else CallIdOf(items[0]) + CallIds(items[1..])
  }

  function AnswerIdOf(item: Item): seq<string> {
    if item.CallOutput? then [item.callId] else []
  }

  function AnswerIds(items: seq<Item>): seq<string> {
    if items == [] then [] else AnswerIdOf(items[0]) + AnswerIds(items[1..])
  }

  /** Every call in the conversation has exactly one answer in it. */
  predicate Paired(items: seq<Item>) {
    multiset(CallIds(items)) == multiset(AnswerIds(items))
  }

  function ResultIds(results: seq<ToolResult>): (ids: seq<string>)
    ensures |ids| == |results|
  {
    seq(|results|, i requires 0 <= i < |results| => results[i].call.id)
  }

  function RequestIds(calls: seq<ToolCall>): (ids: seq<string>)
    ensures |ids| == |calls|
  {
    seq(|calls|, i requires 0 <= i < |calls| => calls[i].id)
  }

  function RoutingId(r: Routing): string {
    match r
    case Blocked(result) => result.call.id
    case Stopped(result) => result.call.id
    case Cleared(call, _, _) => call.id
  }

  function RoutingIds(rs: seq<Routing>): (ids: seq<string>)
    ensures |ids| == |rs|
  {
    seq(|rs|, i requires 0 <= i < |rs| => RoutingId(rs[i]))
  }

  lemma {:induction false} CallIdsSplit(a: seq<Item>, b: seq<Item>)
    ensures CallIds(a + b) == CallIds(a) + CallIds(b)
  {
    if a == [] {
      assert a + b == b;
    } else {
      assert (a + b)[1..] == a[1..] + b;
      CallIdsSplit(a[1..], b);
      Associates(CallIdOf(a[0]), CallIds(a[1..]), CallIds(b));
    }
  }

  lemma {:induction false} AnswerIdsSplit(a: seq<Item>, b: seq<Item>)
    ensures AnswerIds(a + b) == AnswerIds(a) + AnswerIds(b)
  {
    if a == [] {
      assert a + b == b;
    } else {
      assert (a + b)[1..] == a[1..] + b;
      AnswerIdsSplit(a[1..], b);
      Associates(AnswerIdOf(a[0]), AnswerIds(a[1..]), AnswerIds(b));
    }
  }

  lemma IdsSplit(a: seq<Item>, b: seq<Item>)
    ensures CallIds(a + b) == CallIds(a) + CallIds(b) && AnswerIds(a + b) == AnswerIds(a) + AnswerIds(b)
  {
    CallIdsSplit(a, b);
    AnswerIdsSplit(a, b);
  }

  lemma {:induction false} PlainIds(items: seq<Item>)
    requires forall i :: 0 <= i < |items| ==> items[i].User? || items[i].Reminder? || items[i].Image?
    ensures CallIds(items) == [] && AnswerIds(items) == []
  {
    if items != [] {
      PlainIds(items[1..]);
    }
  }

  lemma {:induction false} OutputItemIds(results: seq<ToolResult>)
    ensures CallIds(OutputItems(results)) == [] && AnswerIds(OutputItems(results)) == ResultIds(results)
  {
    if results != [] {
      OutputItemIds(results[1..]);
      assert OutputItems(results)[1..] == OutputItems(results[1..]);
      assert ResultIds(results) == [results[0].call.id] + ResultIds(results[1..]);
    }
  }

  lemma {:induction false} ImageItemsAreImages(results: seq<ToolResult>)
    ensures forall i :: 0 <= i < |ImageItems(results)| ==> ImageItems(results)[i].Image?
  {
    if results != [] {
      ImageItemsAreImages(results[1..]);
    }
  }

  /** The requests are the reply's calls, if each has an id. */
  lemma {:induction false} RequestsAreTheCalls(items: seq<OutputItem>, late: nat)
    requires forall i :: 0 <= i < |FunctionCalls(items)| ==> FunctionCalls(items)[i].FunctionCall?
    requires Requests(FunctionCalls(items), late).Ok?
    ensures RequestIds(Requests(FunctionCalls(items), late).value) == CallIds(Outputs(items))
    ensures AnswerIds(Outputs(items)) == []
    decreases |items|
  {
    if items != [] {
      assert Outputs(items)[1..] == Outputs(items[1..]);
      if items[0].FunctionCall? {
        assert FunctionCalls(items)[1..] == FunctionCalls(items[1..]);
        FunctionCallsAreCalls(items[1..]);
        RequestsAreTheCalls(items[1..], late - 1);
        var rest := Requests(FunctionCalls(items[1..]), late - 1).value;
        var first := ToolCall(items[0].callId.value, items[0].name, items[0].arguments);
        assert RequestIds([first] + rest) == [first.id] + RequestIds(rest);
      } else {
        assert FunctionCalls(items) == FunctionCalls(items[1..]);
        RequestsAreTheCalls(items[1..], late);
      }
    }
  }

  // ---------------------------------------------------------------- one batch

  lemma ResultIdsSplit(a: seq<ToolResult>, b: seq<ToolResult>)
    ensures ResultIds(a + b) == ResultIds(a) + ResultIds(b)
  {
  }

  predicate AreParts(whole: seq<string>, a: seq<string>, b: seq<string>, c: seq<string>) {
    multiset(whole) == multiset(a) + multiset(b) + multiset(c)
  }

  lemma PartGrows(whole: seq<string>, a: seq<string>, b: seq<string>, c: seq<string>, id: string)
    requires AreParts(whole, a, b, c)
    ensures AreParts([id] + whole, [id] + a, b, c)
    ensures AreParts([id] + whole, a, [id] + b, c)
    ensures AreParts([id] + whole, a, b, [id] + c)
  {
  }

  lemma {:induction false} RoutesPartition(rs: seq<Routing>)
    ensures AreParts(RoutingIds(rs), RoutingIds(ClearedIn(rs)), ResultIds(BlockedIn(rs)), ResultIds(StoppedIn(rs)))
  {
    if rs != [] {
      var rest, id := rs[1..], RoutingId(rs[0]);
      var cleared, blocked, stopped := ClearedIn(rest), BlockedIn(rest), StoppedIn(rest);
      RoutesPartition(rest);
      PartGrows(RoutingIds(rest), RoutingIds(cleared), ResultIds(blocked), ResultIds(stopped), id);
      RoutingFirst(rs[0], rest);
      assert rs == [rs[0]] + rest;
      if rs[0].Cleared? {
        RoutingFirst(rs[0], cleared);
      } else if rs[0].Blocked? {
        ResultFirst(rs[0].result, blocked);
      } else {
        ResultFirst(rs[0].result, stopped);
      }
    }
  }

  lemma RoutingFirst(r: Routing, rest: seq<Routing>)
    ensures RoutingIds([r] + rest) == [RoutingId(r)] + RoutingIds(rest)
  {
  }

  lemma ResultFirst(r: ToolResult, rest: seq<ToolResult>)
    ensures ResultIds([r] + rest) == [r.call.id] + ResultIds(rest)
  {
  }

  lemma {:induction false} RunInOrderIds(cleared: seq<Routing>, partials: map<string, Partial>)
    requires AllCleared(cleared)
    ensures ResultIds(RunInOrder(cleared, partials)) == RoutingIds(cleared)
    decreases |cleared|
  {
    if cleared != [] {
      var rest := RunInOrder(cleared[1..], partials - {cleared[0].call.id});
      RunInOrderIds(cleared[1..], partials - {cleared[0].call.id});
      assert ResultIds(RunInOrder(cleared, partials)) == [cleared[0].call.id] + ResultIds(rest);
      assert RoutingIds(cleared) == [cleared[0].call.id] + RoutingIds(cleared[1..]);
    }
  }

  /** Whichever way each call goes, it has one result. */
  lemma BatchAnswersEach(calls: seq<ToolCall>, cs: seq<Circumstance>, completions: seq<nat>)
    requires |cs| >= |calls| && BatchResults(Routes(calls, cs), completions).Ok?
    ensures multiset(ResultIds(BatchResults(Routes(calls, cs), completions).value)) == multiset(RequestIds(calls))
  {
    var rs := Routes(calls, cs);
    var cleared := ClearedIn(rs);
    RouteKeepsIds(calls, cs);
    RoutesPartition(rs);
    RunInOrderIds(cleared, Partials(cleared));
    var ran := Execute(cleared, completions).value;
    assert ResultIds(ran) == RoutingIds(cleared);
    ResultIdsSplit(ran, BlockedIn(rs) + StoppedIn(rs));
    ResultIdsSplit(BlockedIn(rs), StoppedIn(rs));
  }

  lemma RouteKeepsIds(calls: seq<ToolCall>, cs: seq<Circumstance>)
    requires |cs| >= |calls|
    ensures RoutingIds(Routes(calls, cs)) == RequestIds(calls)
  {
    forall i | 0 <= i < |calls| ensures RoutingId(Route(calls[i], cs[i])) == calls[i].id {
      RouteKeepsCall(calls[i], cs[i]);
    }
  }

  lemma RouteKeepsCall(call: ToolCall, c: Circumstance)
    ensures RoutingId(Route(call, c)) == call.id
    ensures Route(call, c).Cleared? ==> Route(call, c).call.name == call.name && Route(call, c).run == c.run
  {
  }

  // ---------------------------------------------------------------- every call is answered once

  lemma FinishKeepsPaired(t: Turn, calls: seq<ToolCall>, cs: seq<Circumstance>, completions: seq<nat>)
    requires |cs| >= |calls| && BatchResults(Routes(calls, cs), completions).Ok?
    requires multiset(CallIds(t.input)) == multiset(AnswerIds(t.input)) + multiset(RequestIds(calls))
    ensures Paired(FinishBatch(t, Routes(calls, cs), completions).turn.input)
  {
    var results := BatchResults(Routes(calls, cs), completions).value;
    var outputs, images := OutputItems(results), ImageItems(results);
    BatchAnswersEach(calls, cs, completions);
    ImageItemsAreImages(results);
    PlainIds(images);
    OutputItemIds(results);
    IdsSplit(outputs, images);
    IdsSplit(t.input, outputs + images);
  }

  lemma {:induction false} TextIds(items: seq<OutputItem>)
    requires FunctionCalls(items) == []
    ensures CallIds(Outputs(items)) == [] && AnswerIds(Outputs(items)) == []
  {
    if items != [] {
      assert Outputs(items)[1..] == Outputs(items[1..]);
      TextIds(items[1..]);
    }
  }

  lemma TextKeepsPaired(t: Turn, items: seq<OutputItem>)
    requires Paired(t.input) && FunctionCalls(items) == []
    ensures Paired(WithoutCalls(t.(input := t.input + Outputs(items)), items).turn.input)
  {
    TextIds(items);
    IdsSplit(t.input, Outputs(items));
    PlainIds([Reminder]);
    IdsSplit(t.input + Outputs(items), [Reminder]);
  }

  lemma CallsAreTried(cfg: Config, t: Turn, items: seq<OutputItem>, r: Reply) returns (requests: seq<ToolCall>, u: Turn)
    requires FunctionCalls(items) != []
    requires Answered(cfg, t, items, r).Ended? ==> Answered(cfg, t, items, r).result.Ok?
    ensures forall i :: 0 <= i < |FunctionCalls(items)| ==> FunctionCalls(items)[i].FunctionCall?
    ensures Requests(FunctionCalls(items), r.late) == Ok(requests) && |r.circumstances| >= |requests|
    ensures !OverBudget(cfg, t.executed, |requests|)
    ensures u == Turn(t.input + Outputs(items), SaturatingAdd(t.executed, |requests|), 0, t.requests,
                      t.tried + Trials(requests, r.circumstances), t.ran + Started(requests, r.circumstances))
    ensures Answered(cfg, t, items, r) == FinishBatch(u, Routes(requests, r.circumstances), r.completions)
  {
    FunctionCallsAreCalls(items);
    requests := Requests(FunctionCalls(items), r.late).value;
    u := Turn(t.input + Outputs(items), SaturatingAdd(t.executed, |requests|), 0, t.requests,
              t.tried + Trials(requests, r.circumstances), t.ran + Started(requests, r.circumstances));
  }

  lemma CallsKeepPaired(cfg: Config, t: Turn, items: seq<OutputItem>, r: Reply)
    requires Paired(t.input) && FunctionCalls(items) != []
    requires Answered(cfg, t, items, r).Ended? ==> Answered(cfg, t, items, r).result.Ok?
    ensures Paired(Answered(cfg, t, items, r).turn.input)
  {
    var requests, u := CallsAreTried(cfg, t, items, r);
    RequestsAreTheCalls(items, r.late);
    IdsSplit(t.input, Outputs(items));
    FinishKeepsPaired(u, requests, r.circumstances, r.completions);
  }

  lemma RequestIsAnswered(cfg: Config, t: Turn, r: Reply) returns (u: Turn)
    requires OneRequest(cfg, t, r).Ended? ==> OneRequest(cfg, t, r).result.Ok?
    ensures r.answer.Ok? && OneRequest(cfg, t, r) == Answered(cfg, u, r.answer.value, r)
    ensures u == t.(input := t.input + Users(r.steered), requests := t.requests + 1)
  {
    u := t.(input := t.input + Users(r.steered), requests := t.requests + 1);
  }

  lemma RequestKeepsPaired(cfg: Config, t: Turn, r: Reply)
    requires Paired(t.input) && (OneRequest(cfg, t, r).Ended? ==> OneRequest(cfg, t, r).result.Ok?)
    ensures Paired(OneRequest(cfg, t, r).turn.input)
  {
    var u := RequestIsAnswered(cfg, t, r);
    PlainIds(Users(r.steered));
    IdsSplit(t.input, Users(r.steered));
    if FunctionCalls(r.answer.value) == [] {
      TextKeepsPaired(u, r.answer.value);
    } else {
      CallsKeepPaired(cfg, u, r.answer.value, r);
    }
  }

  /** Every time the turn reaches its next request, and when it ends well, every call of the
      conversation has exactly one answer. */
  lemma {:induction false} CallsAreAnswered(cfg: Config, t: Turn, script: seq<Reply>)
    requires Paired(t.input)
    ensures var p := RunTurn(cfg, t, script); p.Going? || p.result.Ok? ==> Paired(p.turn.input)
    decreases |script|
  {
    if script != [] {
      var p := OneRequest(cfg, t, script[0]);
      if p.Going? || p.result.Ok? {
        RequestKeepsPaired(cfg, t, script[0]);
        if p.Going? {
          CallsAreAnswered(cfg, p.turn, script[1..]);
        }
      }
    }
  }

  // ---------------------------------------------------------------- images come after the answers

  /** No image stands right before an answer, so the answers of a batch are never split. */
  predicate ImagesTrail(items: seq<Item>) {
    forall i :: 0 <= i < |items| - 1 && items[i].Image? ==> !items[i + 1].CallOutput?
  }

  lemma TrailAppend(a: seq<Item>, b: seq<Item>)
    requires ImagesTrail(a) && ImagesTrail(b)
    requires a != [] && b != [] ==> !a[|a| - 1].Image? || !b[0].CallOutput?
    ensures ImagesTrail(a + b)
  {
  }

  lemma ReplyTrails(t: Turn, steered: seq<string>, items: seq<OutputItem>)
    requires ImagesTrail(t.input)
    ensures ImagesTrail(t.input + Users(steered) + Outputs(items))
  {
    TrailAppend(t.input, Users(steered));
    TrailAppend(t.input + Users(steered), Outputs(items));
  }

  lemma BatchTrails(input: seq<Item>, results: seq<ToolResult>)
    requires ImagesTrail(input) && input != [] && !input[|input| - 1].Image?
    ensures ImagesTrail(input + (OutputItems(results) + ImageItems(results)))
  {
    ImageItemsAreImages(results);
    TrailAppend(OutputItems(results), ImageItems(results));
    TrailAppend(input, OutputItems(results) + ImageItems(results));
  }

  lemma RequestKeepsTrail(cfg: Config, t: Turn, r: Reply)
    requires ImagesTrail(t.input) && OneRequest(cfg, t, r).Going?
    ensures ImagesTrail(OneRequest(cfg, t, r).turn.input)
  {
    var u := RequestIsAnswered(cfg, t, r);
    var items := r.answer.value;
    ReplyTrails(t, r.steered, items);
    if FunctionCalls(items) == [] {
      TrailAppend(u.input + Outputs(items), [Reminder]);
    } else {
      var requests, v := CallsAreTried(cfg, u, items, r);
      assert items != [] && v.input[|v.input| - 1] == Output(items[|items| - 1]);
      BatchTrails(v.input, BatchResults(Routes(requests, r.circumstances), r.completions).value);
    }
  }

  /** At every request, however many tools gave images. */
  lemma {:induction false} ImagesNeverSplitAnswers(cfg: Config, t: Turn, script: seq<Reply>)
    requires ImagesTrail(t.input) && RunTurn(cfg, t, script).Going?
    ensures ImagesTrail(RunTurn(cfg, t, script).turn.input)
    decreases |script|
  {
    if script != [] {
      RequestKeepsTrail(cfg, t, script[0]);
      ImagesNeverSplitAnswers(cfg, OneRequest(cfg, t, script[0]).turn, script[1..]);
    }
  }

  // ---------------------------------------------------------------- the budget

  /** What was counted bounds what ran and what was asked. */
  predicate WithinBudget(t: Turn, m: nat) {
    |t.ran| <= t.executed <= m && t.empties <= 2 && t.requests <= 3 * t.executed + t.empties
  }

  lemma {:induction false} SomeCalls(calls: seq<OutputItem>, late: nat)
    requires forall i :: 0 <= i < |calls| ==> calls[i].FunctionCall?
    requires Requests(calls, late).Ok?
    ensures |Requests(calls, late).value| == |calls|
    decreases |calls|
  {
    if calls != [] {
      SomeCalls(calls[1..], late - 1);
    }
  }

  /** The calls that run are those that are cleared, each as its route says. */
  lemma {:induction false} StartedAreCleared(calls: seq<ToolCall>, cs: seq<Circumstance>)
    requires |cs| >= |calls|
    ensures |Started(calls, cs)| == |ClearedIn(Routes(calls, cs))|
    ensures forall i :: 0 <= i < |Started(calls, cs)| ==>
              ClearedIn(Routes(calls, cs))[i] == Route(Started(calls, cs)[i].call, Started(calls, cs)[i].c)
  {
    if calls != [] {
      StartedAreCleared(calls[1..], cs[1..]);
      assert Routes(calls, cs)[1..] == Routes(calls[1..], cs[1..]);
    }
  }

  lemma {:induction false} RunsNoMoreThanCounted(rs: seq<Routing>)
    ensures |ClearedIn(rs)| + |BlockedIn(rs)| + |StoppedIn(rs)| == |rs|
  {
    if rs != [] {
      RunsNoMoreThanCounted(rs[1..]);
    }
  }

  lemma AnsweredWithinBudget(cfg: Config, t: Turn, items: seq<OutputItem>, r: Reply, m: nat)
    requires cfg.maxToolCalls == Some(m) && m < U64_MAX
    requires |t.ran| <= t.executed <= m && t.empties <= 2 && t.requests <= 3 * t.executed + t.empties + 1
    ensures var p := Answered(cfg, t, items, r);
            && |p.turn.ran| <= p.turn.executed <= m && p.turn.requests <= 3 * (m + 1)
            && (p.Going? ==> WithinBudget(p.turn, m))
  {
    FunctionCallsAreCalls(items);
    if FunctionCalls(items) != [] && Requests(FunctionCalls(items), r.late).Ok? {
      SomeCalls(FunctionCalls(items), r.late);
      var requests := Requests(FunctionCalls(items), r.late).value;
      var n := |requests|;
      if !OverBudget(cfg, t.executed, n) && |r.circumstances| >= n {
        assert n >= 1 && SaturatingAdd(t.executed, n) == t.executed + n;
        StartedAreCleared(requests, r.circumstances);
        RunsNoMoreThanCounted(Routes(requests, r.circumstances));
      }
    }
  }

  /** With a budget of `m` calls a turn runs at most `m` calls and asks the model at most 3(m + 1) times,
      in every run and however it ends. */
  lemma {:induction false} BudgetBoundsTurn(cfg: Config, t: Turn, script: seq<Reply>, m: nat)
    requires cfg.maxToolCalls == Some(m) && m < U64_MAX && WithinBudget(t, m)
    ensures var p := RunTurn(cfg, t, script);
            |p.turn.ran| <= p.turn.executed <= m && p.turn.requests <= 3 * (m + 1)
    decreases |script|
  {
    if script != [] {
      var r := script[0];
      var p := OneRequest(cfg, t, r);
      if r.answer.Ok? {
        AnsweredWithinBudget(cfg, t.(input := t.input + Users(r.steered), requests := t.requests + 1), r.answer.value, r, m);
      }
      if p.Going? {
        BudgetBoundsTurn(cfg, p.turn, script[1..], m);
      }
    }
  }

  lemma RequestCountsAnswers(cfg: Config, t: Turn, r: Reply, m: nat)
    requires cfg.maxToolCalls == Some(m) && m < U64_MAX && OneRequest(cfg, t, r).Going?
    ensures var u := OneRequest(cfg, t, r).turn;
            |AnswerIds(u.input)| - |AnswerIds(t.input)| == u.executed - t.executed
  {
    var u := RequestIsAnswered(cfg, t, r);
    var items := r.answer.value;
    PlainIds(Users(r.steered));
    IdsSplit(t.input, Users(r.steered));
    IdsSplit(u.input, Outputs(items));
    if FunctionCalls(items) == [] {
      TextIds(items);
      PlainIds([Reminder]);
      IdsSplit(u.input + Outputs(items), [Reminder]);
    } else {
      var requests, v := CallsAreTried(cfg, u, items, r);
      RequestsAreTheCalls(items, r.late);
      var results := BatchResults(Routes(requests, r.circumstances), r.completions).value;
      BatchCounts(requests, r.circumstances, r.completions);
      FinishCounts(v.input, results);
    }
  }

  lemma BatchCounts(calls: seq<ToolCall>, cs: seq<Circumstance>, completions: seq<nat>)
    requires |cs| >= |calls| && BatchResults(Routes(calls, cs), completions).Ok?
    ensures |BatchResults(Routes(calls, cs), completions).value| == |calls|
  {
    BatchAnswersEach(calls, cs, completions);
    var ids := ResultIds(BatchResults(Routes(calls, cs), completions).value);
    assert |multiset(ids)| == |ids| && |multiset(RequestIds(calls))| == |RequestIds(calls)|;
  }

  lemma FinishCounts(input: seq<Item>, results: seq<ToolResult>)
    ensures |AnswerIds(input + (OutputItems(results) + ImageItems(results)))| == |AnswerIds(input)| + |results|
  {
    ImageItemsAreImages(results);
    PlainIds(ImageItems(results));
    OutputItemIds(results);
    IdsSplit(OutputItems(results), ImageItems(results));
    IdsSplit(input, OutputItems(results) + ImageItems(results));
  }

  /** Every call that is counted is answered, and no other: at each request the answers in the
      conversation have grown by exactly the count. */
  lemma {:induction false} CountIsAnswers(cfg: Config, t: Turn, script: seq<Reply>, m: nat)
    requires cfg.maxToolCalls == Some(m) && m < U64_MAX && RunTurn(cfg, t, script).Going?
    ensures var u := RunTurn(cfg, t, script).turn;
            |AnswerIds(u.input)| - |AnswerIds(t.input)| == u.executed - t.executed
    decreases |script|
  {
    if script != [] {
      RequestCountsAnswers(cfg, t, script[0], m);
      CountIsAnswers(cfg, OneRequest(cfg, t, script[0]).turn, script[1..], m);
    }
  }

  /** Only the largest budget there is never stops a turn: the count saturates at it. */
  lemma BudgetBindsExactly(headroom: nat, m: nat)
    requires m <= U64_MAX
    ensures (exists executed: nat, requested: nat :: OverBudget(Config(headroom, Some(m)), executed, requested)) <==> m < U64_MAX
  {
    if m < U64_MAX {
      assert OverBudget(Config(headroom, Some(m)), m, 1);
    }
  }

  // ---------------------------------------------------------------- what runs

  /** A call runs exactly when plan mode, the hook and the rules let it, and it needs no approval, or
      the classifier or whoever is asked approves it, and a part of it that is approved can be split off. */
  lemma RunsExactlyWhenCleared(call: ToolCall, c: Circumstance)
    ensures Route(call, c).Cleared? <==>
            && !(c.planMode && c.refusal.Some?) && c.hook.None? && c.gate != Forbid
            && (MustAsk(call.name, c) ==>
                  || ClassifiedAllow(call.name, c)
                  || !c.handler
                  || (c.decision.allow &&
                      (c.decision.hunks.Some? ==>
                         EditFiltered(call.name, call.arguments, set id | id in c.decision.hunks.value).Ok?)))
  {
  }

  /** A part of a call is approved of edit tools only, and those never run in parallel. */
  lemma PartsRunInOrder(call: ToolCall, c: Circumstance)
    ensures Route(call, c).Cleared? && Route(call, c).partial.Some? ==> !IsParallelSafe(call.name)
  {
  }

  // ---------------------------------------------------------------- the summary of a part

  /** No call with an approved part has an earlier call with its id. */
  predicate NoLaterPart(cleared: seq<Routing>)
    requires AllCleared(cleared)
  {
    forall i, j :: 0 <= i < j < |cleared| && cleared[i].call.id == cleared[j].call.id ==> cleared[j].partial.None?
  }

  predicate IsFirstOfId(cleared: seq<Routing>, i: nat)
    requires AllCleared(cleared) && i < |cleared|
  {
    forall k :: 0 <= k < i ==> cleared[k].call.id != cleared[i].call.id
  }

  /** Every result carries the summary of its own call. */
  predicate OwnSummaries(cleared: seq<Routing>, results: seq<ToolResult>)
    requires AllCleared(cleared)
  {
    |results| == |cleared| && forall i :: 0 <= i < |cleared| ==> results[i] == ToolResult(cleared[i].call, cleared[i].run, cleared[i].partial)
  }

  lemma {:induction false} PartialsOfCalls(cleared: seq<Routing>)
    requires AllCleared(cleared)
    ensures forall id :: id in Partials(cleared) ==> exists i :: 0 <= i < |cleared| && cleared[i].call.id == id
  {
    if cleared != [] {
      PartialsOfCalls(cleared[..|cleared| - 1]);
    }
  }

  lemma {:induction false} PartialOfFirst(cleared: seq<Routing>, i: nat)
    requires AllCleared(cleared) && NoLaterPart(cleared) && i < |cleared| && IsFirstOfId(cleared, i)
    ensures Lookup(Partials(cleared), cleared[i].call.id) == cleared[i].partial
  {
    var init := cleared[..|cleared| - 1];
    if i == |cleared| - 1 {
      PartialsOfCalls(init);
      assert forall k :: 0 <= k < |init| ==> init[k] == cleared[k];
    } else {
      PartialOfFirst(init, i);
    }
  }

  /** In order, the first call of an id takes what is kept under it, and the others find nothing. */
  lemma {:induction false} InOrderSummaries(cleared: seq<Routing>, partials: map<string, Partial>, i: nat)
    requires AllCleared(cleared) && i < |cleared|
    ensures |RunInOrder(cleared, partials)| == |cleared|
    ensures RunInOrder(cleared, partials)[i] ==
            ToolResult(cleared[i].call, cleared[i].run,
                       if IsFirstOfId(cleared, i) then Lookup(partials, cleared[i].call.id) else None)
    decreases |cleared|
  {
    var rest := cleared[1..];
    RunInOrderLength(rest, partials - {cleared[0].call.id});
    if i > 0 {
      InOrderSummaries(rest, partials - {cleared[0].call.id}, i - 1);
      assert IsFirstOfId(cleared, i) <==> cleared[0].call.id != cleared[i].call.id && IsFirstOfId(rest, i - 1) by {
        assert forall k :: 0 < k < i ==> cleared[k] == rest[k - 1];
        assert forall k :: 0 <= k < i - 1 ==> rest[k] == cleared[k + 1];
      }
    }
  }

  lemma {:induction false} RunInOrderLength(cleared: seq<Routing>, partials: map<string, Partial>)
    requires AllCleared(cleared)
    ensures |RunInOrder(cleared, partials)| == |cleared|
    decreases |cleared|
  {
    if cleared != [] {
      RunInOrderLength(cleared[1..], partials - {cleared[0].call.id});
    }
  }

  lemma InOrderExactly(cleared: seq<Routing>)
    requires AllCleared(cleared)
    ensures OwnSummaries(cleared, RunInOrder(cleared, Partials(cleared))) <==> NoLaterPart(cleared)
  {
    var results := RunInOrder(cleared, Partials(cleared));
    RunInOrderLength(cleared, Partials(cleared));
    if NoLaterPart(cleared) {
      forall i | 0 <= i < |cleared| ensures results[i] == ToolResult(cleared[i].call, cleared[i].run, cleared[i].partial) {
        InOrderSummaries(cleared, Partials(cleared), i);
        if IsFirstOfId(cleared, i) {
          PartialOfFirst(cleared, i);
        }
      }
    }
    if OwnSummaries(cleared, results) {
      forall i, j | 0 <= i < j < |cleared| && cleared[i].call.id == cleared[j].call.id ensures cleared[j].partial.None? {
        InOrderSummaries(cleared, Partials(cleared), j);
      }
    }
  }

  /** In any batch the model is told of each call what was applied of that very call, exactly when no call
      that is approved in part has an earlier call with its id. */
  lemma SummariesAreOwnExactly(calls: seq<ToolCall>, cs: seq<Circumstance>, completions: seq<nat>)
    requires |cs| >= |calls| && Execute(ClearedIn(Routes(calls, cs)), completions).Ok?
    ensures OwnSummaries(ClearedIn(Routes(calls, cs)), Execute(ClearedIn(Routes(calls, cs)), completions).value) <==>
            NoLaterPart(ClearedIn(Routes(calls, cs)))
  {
    var cleared := ClearedIn(Routes(calls, cs));
    InOrderExactly(cleared);
    if RunsParallel(cleared) {
      StartedAreCleared(calls, cs);
      forall i | 0 <= i < |cleared| ensures cleared[i].partial.None? {
        PartsRunInOrder(Started(calls, cs)[i].call, Started(calls, cs)[i].c);
        RouteKeepsCall(Started(calls, cs)[i].call, Started(calls, cs)[i].c);
      }
    }
  }

  // ---------------------------------------------------------------- a batch that is misreported

  /** A call that must be asked for, with this answer. */
  function AskedWith(decision: Decision, run: ToolRun): Circumstance {
    Circumstance(false, None, None, FollowMode, Manual, None, true, false, decision, run)
  }

  function TwoEdits(first: string, second: string): Arguments {
    Arguments.Arguments(None, Some([first, second]), "")
  }

  lemma FirstOfTwo(first: string, second: string)
    ensures EditFiltered("str_replace", TwoEdits(first, second), {"f0h1"}) ==
            Ok(FilteredEdit(TwoEdits(first, second).(edits := Some([first])), ["f0h1"], ["f0h2"]))
  {
    var ids, edits := HunkIds(0, 1, 2), [first, second];
    assert HunkId(0, 1) == "f0h1" && HunkId(0, 2) == "f0h2" && ids == ["f0h1", "f0h2"];
    assert "f0h1" != "f0h2" by {
      assert "f0h1"[3] != "f0h2"[3];
    }
    assert edits[1..] == [second] && edits[1..][1..] == [] && ids[1..] == ["f0h2"] && ids[1..][1..] == [];
    assert Select(edits[1..], ids[1..], Among({"f0h1"})) == [] && Select(edits, ids, Among({"f0h1"})) == [first];
    assert Select(ids[1..], ids[1..], Among({"f0h1"})) == [] && Select(ids, ids, Among({"f0h1"})) == ["f0h1"];
    assert Select(ids[1..], ids[1..], NotAmong({"f0h1"})) == ["f0h2"] && Select(ids, ids, NotAmong({"f0h1"})) == ["f0h2"];
  }

  /** Two calls with one id, a file written whole and then the first of two edits: the model is told of the
      edit's hunks as the write's result, and nothing of the edit. */
  lemma OneIdTwiceMisreports(id: string, file: Arguments, first: string, second: string, run: ToolRun)
    ensures var calls := [ToolCall(id, "write", file), ToolCall(id, "str_replace", TwoEdits(first, second))];
            var cs := [AskedWith(ALLOW_ALL, run), AskedWith(Decision(true, Some(["f0h1"]), None), run)];
            var ran := Execute(ClearedIn(Routes(calls, cs)), []);
            && ran.Ok? && |ran.value| == 2
            && ran.value[0].summary == Some(Partial(["f0h1"], ["f0h2"])) && ran.value[1].summary == None
            && ran.value[1].call.arguments == TwoEdits(first, second).(edits := Some([first]))
  {
    var calls := [ToolCall(id, "write", file), ToolCall(id, "str_replace", TwoEdits(first, second))];
    var cs := [AskedWith(ALLOW_ALL, run), AskedWith(Decision(true, Some(["f0h1"]), None), run)];
    var whole, some := PartialPair(id, file, first, second, run);
    var rs := Routes(calls, cs);
    assert rs == [whole, some];
    ClearsPair(whole, some);
    RunsPair(whole, some);
  }

  lemma ClearsPair(whole: Routing, some: Routing)
    requires whole.Cleared? && some.Cleared? && whole.call.name == "write"
    ensures ClearedIn([whole, some]) == [whole, some] && !RunsParallel([whole, some])
  {
    assert [whole, some][1..] == [some] && [some][1..] == [];
    assert ClearedIn([some]) == [some] && [whole] + [some] == [whole, some];
    assert !IsParallelSafe([whole, some][0].call.name);
  }

  lemma PartialPair(id: string, file: Arguments, first: string, second: string, run: ToolRun)
    returns (whole: Routing, some: Routing)
    ensures whole == Route(ToolCall(id, "write", file), AskedWith(ALLOW_ALL, run))
    ensures some == Route(ToolCall(id, "str_replace", TwoEdits(first, second)), AskedWith(Decision(true, Some(["f0h1"]), None), run))
    ensures whole == Cleared(ToolCall(id, "write", file), None, run)
    ensures some.Cleared? && some.call.id == id && some.partial == Some(Partial(["f0h1"], ["f0h2"]))
    ensures some.call.arguments == TwoEdits(first, second).(edits := Some([first]))
  {
    FirstOfTwo(first, second);
    assert (set h | h in ["f0h1"]) == {"f0h1"};
    whole := Route(ToolCall(id, "write", file), AskedWith(ALLOW_ALL, run));
    some := Route(ToolCall(id, "str_replace", TwoEdits(first, second)), AskedWith(Decision(true, Some(["f0h1"]), None), run));
  }

  lemma RunsPair(whole: Routing, some: Routing)
    requires whole.Cleared? && some.Cleared? && whole.call.id == some.call.id && whole.partial.None? && some.partial.Some?
    ensures var results := RunInOrder([whole, some], Partials([whole, some]));
            && |results| == 2 && results[0] == ToolResult(whole.call, whole.run, some.partial)
            && results[1] == ToolResult(some.call, some.run, None)
  {
    var both := [whole, some];
    assert both[..1] == [whole] && both[..1][..0] == [];
    assert Partials([whole]) == map[];
    InOrderSummaries(both, Partials(both), 0);
    InOrderSummaries(both, Partials(both), 1);
    assert !IsFirstOfId(both, 1);
  }
}
