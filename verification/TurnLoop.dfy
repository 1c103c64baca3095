/** The turn as the loops it is made of, each proved to compute its part of TurnSpec. */
module TurnLoop {
  import opened Common
  import opened HunkSelection
  import opened ApprovalState
  import opened TurnSpec
  import opened TurnTheorems

  // ---------------------------------------------------------------- reading the reply

  method CollectCalls(items: seq<OutputItem>) returns (calls: seq<OutputItem>)
    ensures calls == FunctionCalls(items)
  {
    calls := [];
    var i := 0;
    while i < |items|
      invariant i <= |items| && FunctionCalls(items) == calls + FunctionCalls(items[i..])
    {
      assert items[i..][1..] == items[i + 1..];
      var first := if items[i].FunctionCall? then [items[i]] else [];
      Associates(calls, first, FunctionCalls(items[i + 1..]));
      calls := calls + first;
      i := i + 1;
    }
  }

  lemma RequestsBehind(done: seq<ToolCall>, calls: seq<OutputItem>, late: nat)
    requires forall i :: 0 <= i < |calls| ==> calls[i].FunctionCall?
    requires calls != [] && late > 0 && calls[0].callId.Some?
    ensures var call := ToolCall(calls[0].callId.value, calls[0].name, calls[0].arguments);
            Prepended(done, Requests(calls, late)) == Prepended(done + [call], Requests(calls[1..], late - 1))
  {
    var rest := Requests(calls[1..], late - 1);
    if rest.Ok? {
      Associates(done, [ToolCall(calls[0].callId.value, calls[0].name, calls[0].arguments)], rest.value);
    }
  }

  function Prepended(done: seq<ToolCall>, rest: Result<seq<ToolCall>>): Result<seq<ToolCall>> {
    match rest
    case Err(e) => Err(e)
    case Ok(more) => Ok(done + more)
  }

  method ReadRequests(calls: seq<OutputItem>, late: nat) returns (r: Result<seq<ToolCall>>)
    requires forall i :: 0 <= i < |calls| ==> calls[i].FunctionCall?
    ensures r == Requests(calls, late)
  {
    var requests: seq<ToolCall> := [];
    var rest, left := calls, late;
    assert Prepended([], Requests(calls, late)) == Requests(calls, late) by {
      if Requests(calls, late).Ok? {
        assert [] + Requests(calls, late).value == Requests(calls, late).value;
      }
    }
    while rest != []
      invariant forall i :: 0 <= i < |rest| ==> rest[i].FunctionCall?
      invariant Requests(calls, late) == Prepended(requests, Requests(rest, left))
      decreases |rest|
    {
      if left == 0 {
        return Err("subagent timed out");
      }
      if rest[0].callId.None? {
        return Err("tool call is missing call_id");
      }
      RequestsBehind(requests, rest, left);
      requests := requests + [ToolCall(rest[0].callId.value, rest[0].name, rest[0].arguments)];
      rest, left := rest[1..], left - 1;
    }
    assert requests + [] == requests;
    r := Ok(requests);
  }

  // ---------------------------------------------------------------- routing

  /** The calls neither plan mode nor a hook stops. */
  function PassedIn(calls: seq<ToolCall>, cs: seq<Circumstance>): seq<Trial>
    requires |cs| >= |calls|
  {
    if calls == [] then []
    else
      (if Route(calls[0], cs[0]).Blocked? then [] else [Trial(calls[0], cs[0])]) + PassedIn(calls[1..], cs[1..])
  }

  function Gates(passed: seq<Trial>): seq<Routing> {
    if passed == [] then [] else [Gate(passed[0].call, passed[0].c)] + Gates(passed[1..])
  }

  /** The trials the gates clear. */
  function StartedIn(passed: seq<Trial>): seq<Trial> {
    if passed == [] then []
    else if Gate(passed[0].call, passed[0].c).Cleared? then [passed[0]] + StartedIn(passed[1..])
    else StartedIn(passed[1..])
  }

  /** Two passes over a batch give what routing call by call gives. */
  lemma {:induction false} TwoPassesRoute(calls: seq<ToolCall>, cs: seq<Circumstance>)
    requires |cs| >= |calls|
    ensures ClearedIn(Gates(PassedIn(calls, cs))) == ClearedIn(Routes(calls, cs))
    ensures StoppedIn(Gates(PassedIn(calls, cs))) == StoppedIn(Routes(calls, cs))
    ensures StartedIn(PassedIn(calls, cs)) == Started(calls, cs)
  {
    if calls != [] {
      TwoPassesRoute(calls[1..], cs[1..]);
      assert Routes(calls, cs)[1..] == Routes(calls[1..], cs[1..]);
      var rest := PassedIn(calls[1..], cs[1..]);
      if !Route(calls[0], cs[0]).Blocked? {
        assert ([Trial(calls[0], cs[0])] + rest)[1..] == rest;
        assert ([Gate(calls[0], cs[0])] + Gates(rest))[1..] == Gates(rest);
      } else {
        assert [] + rest == rest;
      }
    }
  }

  lemma BlockedBehind(done: seq<ToolResult>, now: seq<ToolResult>, rs: seq<Routing>)
    requires rs != [] && now == if rs[0].Blocked? then [rs[0].result] else []
    ensures done + BlockedIn(rs) == done + now + BlockedIn(rs[1..])
  {
    Associates(done, now, BlockedIn(rs[1..]));
  }

  method CheckModeAndHooks(calls: seq<ToolCall>, cs: seq<Circumstance>)
    returns (passed: seq<Trial>, blocked: seq<ToolResult>)
    requires |cs| >= |calls|
    ensures passed == PassedIn(calls, cs) && blocked == BlockedIn(Routes(calls, cs))
  {
    passed, blocked := [], [];
    var i := 0;
    while i < |calls|
      invariant i <= |calls| && PassedIn(calls, cs) == passed + PassedIn(calls[i..], cs[i..])
      invariant BlockedIn(Routes(calls, cs)) == blocked + BlockedIn(Routes(calls[i..], cs[i..]))
    {
      var call, c := calls[i], cs[i];
      assert calls[i..][1..] == calls[i + 1..] && cs[i..][1..] == cs[i + 1..];
      assert Routes(calls[i..], cs[i..])[1..] == Routes(calls[i + 1..], cs[i + 1..]);
      var nowPassed, nowBlocked := [], [];
      if c.planMode && c.refusal.Some? {
        nowBlocked := [Failure(call, c.refusal.value)];
      } else if c.hook.Some? {
        nowBlocked := [Failure(call, c.hook.value)];
      } else {
        nowPassed := [Trial(call, c)];
      }
      Associates(passed, nowPassed, PassedIn(calls[i + 1..], cs[i + 1..]));
      BlockedBehind(blocked, nowBlocked, Routes(calls[i..], cs[i..]));
      passed, blocked := passed + nowPassed, blocked + nowBlocked;
      i := i + 1;
    }
  }

  /** One call at the gate: the sandbox, the classifier or the user, and the split of the call. */
  method GateCall(call: ToolCall, c: Circumstance) returns (r: Routing)
    ensures r == Gate(call, c)
  {
    if c.gate == Forbid {
      return Stopped(Failure(call, "forbidden"));
    }
    var needsApproval := c.gate == AskUser || (c.gate == FollowMode && NeedsApproval(call.name, c));
    if !needsApproval {
      return Cleared(call, None, c.run);
    }
    var classified := c.gate != AskUser && c.mode == Auto && IsShellTool(call.name) && c.classifierAllows;
    var decision := if classified || !c.handler then ALLOW_ALL else c.decision;
    if !decision.allow {
      return Stopped(DenialOf(call, decision));
    }
    if decision.hunks.None? {
      return Cleared(call, None, c.run);
    }
    var filtered := FilterEditCall(call.name, call.arguments, set id | id in decision.hunks.value);
    match filtered {
      case Ok(f) =>
        r := Cleared(call.(arguments := f.arguments), Some(Partial(f.applied, f.rejected)), c.run);
      case Err(e) =>
        r := Stopped(Failure(call, e));
    }
  }

  lemma GatesBehind(done: seq<Routing>, stopped: seq<ToolResult>, started: seq<Trial>, passed: seq<Trial>)
    requires passed != []
    ensures var g := Gate(passed[0].call, passed[0].c);
            && done + ClearedIn(Gates(passed)) == (if g.Cleared? then done + [g] else done) + ClearedIn(Gates(passed[1..]))
            && stopped + StoppedIn(Gates(passed)) ==
               (if g.Stopped? then stopped + [g.result] else stopped) + StoppedIn(Gates(passed[1..]))
            && started + StartedIn(passed) == (if g.Cleared? then started + [passed[0]] else started) + StartedIn(passed[1..])
  {
    var g, rest := Gate(passed[0].call, passed[0].c), Gates(passed[1..]);
    assert ([g] + rest)[1..] == rest;
    Associates(done, [g], ClearedIn(rest));
    Associates(started, [passed[0]], StartedIn(passed[1..]));
    if g.Stopped? {
      Associates(stopped, [g.result], StoppedIn(rest));
    }
  }

  lemma PartialsGrow(cleared: seq<Routing>, g: Routing)
    requires AllCleared(cleared) && g.Cleared?
    ensures Partials(cleared + [g]) ==
            if g.partial.Some? then Partials(cleared)[g.call.id := g.partial.value] else Partials(cleared)
  {
    assert (cleared + [g])[..|cleared|] == cleared;
  }

  method PassGates(passed: seq<Trial>)
    returns (cleared: seq<Routing>, stopped: seq<ToolResult>, partials: map<string, Partial>, started: seq<Trial>)
    ensures cleared == ClearedIn(Gates(passed)) && stopped == StoppedIn(Gates(passed))
    ensures partials == Partials(cleared) && started == StartedIn(passed)
  {
    cleared, stopped, partials, started := [], [], map[], [];
    var rest := passed;
    while rest != []
      invariant ClearedIn(Gates(passed)) == cleared + ClearedIn(Gates(rest))
      invariant StoppedIn(Gates(passed)) == stopped + StoppedIn(Gates(rest))
      invariant AllCleared(cleared) && partials == Partials(cleared)
      invariant StartedIn(passed) == started + StartedIn(rest)
      decreases |rest|
    {
      GatesBehind(cleared, stopped, started, rest);
      var g := GateCall(rest[0].call, rest[0].c);
      if g.Cleared? {
        PartialsGrow(cleared, g);
        if g.partial.Some? {
          partials := partials[g.call.id := g.partial.value];
        }
        cleared, started := cleared + [g], started + [rest[0]];
      } else {
        stopped := stopped + [g.result];
      }
      rest := rest[1..];
    }
  }

  // ---------------------------------------------------------------- running

  method RunOneByOne(cleared: seq<Routing>, kept: map<string, Partial>) returns (results: seq<ToolResult>)
    requires AllCleared(cleared)
    ensures results == RunInOrder(cleared, kept)
  {
    results := [];
    var rest, partials := cleared, kept;
    while rest != []
      invariant AllCleared(rest) && RunInOrder(cleared, kept) == results + RunInOrder(rest, partials)
      decreases |rest|
    {
      var c := rest[0];
      var result := ToolResult(c.call, c.run, Lookup(partials, c.call.id));
      Associates(results, [result], RunInOrder(rest[1..], partials - {c.call.id}));
      partials := partials - {c.call.id};
      results := results + [result];
      rest := rest[1..];
    }
  }

  datatype Finished = Finished(index: nat, result: ToolResult)

  predicate Increasing(s: seq<Finished>) {
    forall i, j :: 0 <= i < j < |s| ==> s[i].index < s[j].index
  }

  predicate AreRuns(s: seq<Finished>, cleared: seq<Routing>)
    requires AllCleared(cleared)
  {
    forall i :: 0 <= i < |s| ==> s[i].index < |cleared| && s[i].result == PlainResults(cleared)[s[i].index]
  }

  predicate DistinctIndexes(s: seq<Finished>) {
    forall i, j :: 0 <= i < j < |s| ==> s[i].index != s[j].index
  }

  lemma InsertKeepsOrder(sorted: seq<Finished>, at: nat, x: Finished, cleared: seq<Routing>)
    requires AllCleared(cleared) && at <= |sorted| && AreRuns(sorted, cleared) && Increasing(sorted) && AreRuns([x], cleared)
    requires forall i :: 0 <= i < at ==> sorted[i].index < x.index
    requires forall i :: at <= i < |sorted| ==> x.index < sorted[i].index
    ensures var t := sorted[..at] + [x] + sorted[at..]; AreRuns(t, cleared) && Increasing(t)
    ensures forall i :: 0 <= i < |sorted| + 1 ==>
              (sorted[..at] + [x] + sorted[at..])[i] == if i < at then sorted[i] else if i == at then x else sorted[i - 1]
  {
  }

  /** `sort_by_key`: here by insertion. */
  method SortByIndex(completed: seq<Finished>, ghost cleared: seq<Routing>) returns (sorted: seq<Finished>)
    requires AllCleared(cleared) && AreRuns(completed, cleared) && DistinctIndexes(completed)
    ensures |sorted| == |completed| && AreRuns(sorted, cleared) && Increasing(sorted)
  {
    sorted := [];
    var n := 0;
    while n < |completed|
      invariant n <= |completed| && |sorted| == n && AreRuns(sorted, cleared) && Increasing(sorted)
      invariant forall i, j :: 0 <= i < |sorted| && n <= j < |completed| ==> sorted[i].index != completed[j].index
    {
      var at := 0;
      while at < |sorted| && sorted[at].index < completed[n].index
        invariant at <= |sorted|
        invariant forall i :: 0 <= i < at ==> sorted[i].index < completed[n].index
      {
        at := at + 1;
      }
      InsertKeepsOrder(sorted, at, completed[n], cleared);
      sorted := sorted[..at] + [completed[n]] + sorted[at..];
      n := n + 1;
    }
  }

  lemma {:induction false} AtLeast(s: seq<Finished>, i: nat)
    requires Increasing(s) && i < |s|
    ensures s[i].index >= i
  {
    if i > 0 {
      AtLeast(s, i - 1);
    }
  }

  lemma {:induction false} AtMost(s: seq<Finished>, i: nat, n: nat)
    requires Increasing(s) && i < |s| == n && forall k :: 0 <= k < |s| ==> s[k].index < n
    ensures s[i].index <= i
    decreases n - i
  {
    if i + 1 < n {
      AtMost(s, i + 1, n);
    }
  }

  lemma SortedAreInOrder(sorted: seq<Finished>, cleared: seq<Routing>)
    requires AllCleared(cleared) && AreRuns(sorted, cleared) && Increasing(sorted) && |sorted| == |cleared|
    ensures ResultsOf(sorted) == PlainResults(cleared)
  {
    forall i | 0 <= i < |cleared| ensures sorted[i].index == i {
      AtLeast(sorted, i);
      AtMost(sorted, i, |cleared|);
    }
  }

  function ResultsOf(finished: seq<Finished>): (results: seq<ToolResult>)
    ensures |results| == |finished|
  {
    seq(|finished|, i requires 0 <= i < |finished| => finished[i].result)
  }

  /** The workers of a batch: those that finished, and the indexes of those that still run. */
  predicate AreWorkers(completed: seq<Finished>, running: seq<nat>, cleared: seq<Routing>)
    requires AllCleared(cleared)
  {
    && |completed| + |running| == |cleared|
    && AreRuns(completed, cleared) && DistinctIndexes(completed)
    && (forall k :: 0 <= k < |running| ==> running[k] < |cleared|)
    && (forall k, l :: 0 <= k < l < |running| ==> running[k] != running[l])
    && forall i, k :: 0 <= i < |completed| && 0 <= k < |running| ==> completed[i].index != running[k]
  }

  lemma OneMoreFinished(completed: seq<Finished>, running: seq<nat>, cleared: seq<Routing>, at: nat)
    requires AllCleared(cleared) && AreWorkers(completed, running, cleared) && at < |running|
    ensures AreWorkers(completed + [Finished(running[at], PlainResults(cleared)[running[at]])],
                       running[..at] + running[at + 1..], cleared)
  {
  }

  /** In whatever order the workers finish, the results are in the order of the calls. */
  method RunParallelBuiltinTools(cleared: seq<Routing>, completions: seq<nat>) returns (r: Result<seq<ToolResult>>)
    requires AllCleared(cleared)
    ensures r == if AllFinish(completions, |cleared|) then Ok(PlainResults(cleared))
                 else Err("parallel tool worker failed")
  {
    var completed: seq<Finished> := [];
    var running: seq<nat> := seq(|cleared|, i requires 0 <= i < |cleared| => i);
    while |completed| < |cleared|
      invariant |completed| <= |completions| && AreWorkers(completed, running, cleared)
    {
      if |completed| == |completions| {
        return Err("parallel tool worker failed");
      }
      var at := completions[|completed|] % |running|;
      OneMoreFinished(completed, running, cleared, at);
      var c := cleared[running[at]];
      completed := completed + [Finished(running[at], ToolResult(c.call, c.run, None))];
      running := running[..at] + running[at + 1..];
    }
    var sorted := SortByIndex(completed, cleared);
    SortedAreInOrder(sorted, cleared);
    r := Ok(ResultsOf(sorted));
  }

  // ---------------------------------------------------------------- telling the model

  method PushToolResultItems(input: seq<Item>, results: seq<ToolResult>) returns (pushed: seq<Item>)
    ensures pushed == input + (OutputItems(results) + ImageItems(results))
  {
    pushed := input;
    var images: seq<Item> := [];
    var i := 0;
    while i < |results|
      invariant i <= |results| && pushed == input + OutputItems(results)[..i]
      invariant ImageItems(results) == images + ImageItems(results[i..])
    {
      var result := results[i];
      assert results[i..][1..] == results[i + 1..];
      var image := if result.run.image.Some? then [Image(result.run.image.value)] else [];
      Associates(images, image, ImageItems(results[i + 1..]));
      images := images + image;
      pushed := pushed + [CallOutput(result.call.id, result.run, result.summary)];
      i := i + 1;
    }
    Associates(input, OutputItems(results), images);
    pushed := pushed + images;
  }

  // ---------------------------------------------------------------- the turn

  method RunBatch(calls: seq<ToolCall>, r: Reply) returns (results: Result<seq<ToolResult>>, started: seq<Trial>)
    requires |r.circumstances| >= |calls|
    ensures results == BatchResults(Routes(calls, r.circumstances), r.completions)
    ensures started == Started(calls, r.circumstances)
  {
    var passed, blocked := CheckModeAndHooks(calls, r.circumstances);
    TwoPassesRoute(calls, r.circumstances);
    var cleared, stopped, partials, ran := PassGates(passed);
    started := ran;
    var executed: Result<seq<ToolResult>>;
    if |cleared| > 1 && forall i :: 0 <= i < |cleared| ==> IsParallelSafe(cleared[i].call.name) {
      executed := RunParallelBuiltinTools(cleared, r.completions);
    } else {
      var inOrder := RunOneByOne(cleared, partials);
      executed := Ok(inOrder);
    }
    match executed {
      case Err(e) => results := Err(e);
      case Ok(done) => results := Ok(done + (blocked + stopped));
    }
  }

  /** The turn's loop over a script of the world. */
  method RunTurnEvents(cfg: Config, conversation: seq<Item>, script: seq<Reply>) returns (p: Progress)
    ensures p == RunTurn(cfg, Turn(conversation, 0, 0, 0, [], []), script)
  {
    var t := Turn(conversation, 0, 0, 0, [], []);
    var rest := script;
    while rest != []
      invariant RunTurn(cfg, Turn(conversation, 0, 0, 0, [], []), script) == RunTurn(cfg, t, rest)
      decreases |rest|
    {
      p := MakeRequest(cfg, t, rest[0]);
      if p.Ended? {
        return;
      }
      t, rest := p.turn, rest[1..];
    }
    p := Going(t);
  }

  method MakeRequest(cfg: Config, turn: Turn, r: Reply) returns (p: Progress)
    ensures p == OneRequest(cfg, turn, r)
  {
    if r.timedOut {
      return Ended(turn, Err("subagent timed out"));
    }
    if cfg.headroom > 0 && r.grown > cfg.headroom {
      return Ended(turn, Err("mid-turn compaction"));
    }
    var t := turn.(input := turn.input + Users(r.steered), requests := turn.requests + 1);
    if r.answer.Err? {
      return Ended(t, Err(r.answer.error));
    }
    var calls := CollectCalls(r.answer.value);
    FunctionCallsAreCalls(r.answer.value);
    t := t.(input := t.input + Outputs(r.answer.value));
    if calls == [] {
      if IsEmptyResponse(r.answer.value) && t.empties < MAX_EMPTY_RESPONSE_CONTINUATIONS {
        return Going(t.(input := t.input + [Reminder], empties := t.empties + 1));
      }
      return Ended(t, Ok(()));
    }
    p := MakeCalls(cfg, t, calls, r);
  }

  method MakeCalls(cfg: Config, turn: Turn, calls: seq<OutputItem>, r: Reply) returns (p: Progress)
    requires forall i :: 0 <= i < |calls| ==> calls[i].FunctionCall?
    ensures p == WithCalls(cfg, turn, calls, r)
  {
    var t := turn.(empties := 0);
    var read := ReadRequests(calls, r.late);
    if read.Err? {
      return Ended(t, Err(read.error));
    }
    var requests := read.value;
    if cfg.maxToolCalls.Some? && SaturatingAdd(t.executed, |requests|) > cfg.maxToolCalls.value {
      return Ended(t, Err("subagent exceeded tool budget"));
    }
    if |r.circumstances| < |requests| {
      return Ended(t, Err("interrupted"));
    }
    t := t.(executed := SaturatingAdd(t.executed, |requests|));
    var batch, started := RunBatch(requests, r);
    t := t.(tried := t.tried + Trials(requests, r.circumstances), ran := t.ran + started);
    if batch.Err? {
      return Ended(t, Err(batch.error));
    }
    var input := PushToolResultItems(t.input, batch.value);
    t := t.(input := input);
    p := if PlanDelivered(batch.value) then Ended(t, Ok(())) else Going(t);
  }
}
