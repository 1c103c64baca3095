/** One turn of the agent, request by request: which tool calls run, what the model is told of each,
    and when the turn ends (`run_turn_events` in crates/agent-core/src/llm.rs). Everything the world
    decides in a turn is its script. */
module TurnSpec {
  import opened Common
  import opened HunkSelection
  import opened ApprovalState

  // ---------------------------------------------------------------- the conversation

  datatype OutputItem =
    | FunctionCall(callId: Option<string>, name: string, arguments: Arguments)
    | Text(text: string)

  datatype Item =
    | User(text: string)
    | Reminder
    | Output(item: OutputItem)
    | CallOutput(callId: string, output: ToolRun, summary: Option<Partial>)
    | Image(image: string)

  datatype ToolRun = ToolRun(output: string, isError: bool, image: Option<string>)

  /** The hunks of a call that were applied and those the user rejected. */
  datatype Partial = Partial(applied: seq<string>, rejected: seq<string>)

  datatype ToolCall = ToolCall(id: string, name: string, arguments: Arguments)

  datatype ToolResult = ToolResult(call: ToolCall, run: ToolRun, summary: Option<Partial>)

  // ---------------------------------------------------------------- the world

  datatype SandboxGate = FollowMode | RunFreely | AskUser | Forbid

  /** What one call meets: plan mode's refusal, the hook, the sandbox, the approval mode then, the server's
      hint, whether anyone listens for requests, the classifier, the user, and what running it gives. */
  datatype Circumstance = Circumstance(
    planMode: bool, refusal: Option<string>, hook: Option<string>,
    gate: SandboxGate, mode: ApprovalMode, readOnlyHint: Option<bool>, handler: bool,
    classifierAllows: bool, decision: Decision, run: ToolRun)

  /** One request of the turn. `late` is the number of calls read before the deadline passed, the
      circumstances are those of the calls routed before an interrupt, and `completions` says which of
      the parallel workers still running finishes next. */
  datatype Reply = Reply(
    timedOut: bool, grown: nat, steered: seq<string>, answer: Result<seq<OutputItem>>,
    late: nat, circumstances: seq<Circumstance>, completions: seq<nat>)

  datatype Config = Config(headroom: nat, maxToolCalls: Option<nat>)

  // ---------------------------------------------------------------- reading a reply

  const MAX_EMPTY_RESPONSE_CONTINUATIONS := 2

  function Outputs(items: seq<OutputItem>): (out: seq<Item>)
    ensures |out| == |items|
  {
    seq(|items|, i requires 0 <= i < |items| => Output(items[i]))
  }

  function FunctionCalls(items: seq<OutputItem>): seq<OutputItem> {
    if items == [] then []
    else (if items[0].FunctionCall? then [items[0]] else []) + FunctionCalls(items[1..])
  }

  predicate IsEmptyResponse(items: seq<OutputItem>) {
    forall i :: 0 <= i < |items| ==> items[i].Text? && Trim(items[i].text) == ""
  }

  /** The calls as requests: an error when the deadline passes or a call has no id. */
  function Requests(calls: seq<OutputItem>, late: nat): Result<seq<ToolCall>>
    requires forall i :: 0 <= i < |calls| ==> calls[i].FunctionCall?
  {
    if calls == [] then Ok([])
    else if late == 0 then Err("subagent timed out")
    else if calls[0].callId.None? then Err("tool call is missing call_id")
    else
      match Requests(calls[1..], late - 1)
      case Err(e) => Err(e)
      case Ok(rest) => Ok([ToolCall(calls[0].callId.value, calls[0].name, calls[0].arguments)] + rest)
  }

  function SaturatingAdd(a: nat, b: nat): nat {
    if a + b > U64_MAX then U64_MAX else a + b
  }

  predicate OverBudget(cfg: Config, executed: nat, requested: nat) {
    cfg.maxToolCalls.Some? && SaturatingAdd(executed, requested) > cfg.maxToolCalls.value
  }

  // ---------------------------------------------------------------- one call's way

  datatype Routing =
    | Blocked(result: ToolResult)
    | Stopped(result: ToolResult)
    | Cleared(call: ToolCall, partial: Option<Partial>, run: ToolRun)

  function Failure(call: ToolCall, reason: string): ToolResult {
    ToolResult(call, ToolRun(reason, true, None), None)
  }

  /** `needs_approval`. */
  predicate NeedsApproval(name: string, c: Circumstance) {
    c.handler && if c.readOnlyHint.Some? then RequiresApprovalForMcp(c.mode, c.readOnlyHint.value)
                 else RequiresApproval(c.mode, name)
  }

  predicate MustAsk(name: string, c: Circumstance) {
    c.gate == AskUser || (c.gate == FollowMode && NeedsApproval(name, c))
  }

  predicate ClassifiedAllow(name: string, c: Circumstance) {
    c.gate != AskUser && c.mode == Auto && IsShellTool(name) && c.classifierAllows
  }

  /** `request_approval`: with nobody to ask, yes. */
  function Requested(c: Circumstance): Decision {
    if c.handler then c.decision else ALLOW_ALL
  }

  function DenialOf(call: ToolCall, decision: Decision): ToolResult {
    if decision.deferred.Some? then ToolResult(call, ToolRun("submitted for confirmation", false, None), None)
    else Failure(call, "denied by user")
  }

  function Decided(call: ToolCall, decision: Decision, run: ToolRun): Routing {
    if !decision.allow then Stopped(DenialOf(call, decision))
    else if decision.hunks.None? then Cleared(call, None, run)
    else
      match EditFiltered(call.name, call.arguments, set id | id in decision.hunks.value)
      case Err(e) => Stopped(Failure(call, e))
      case Ok(f) => Cleared(call.(arguments := f.arguments), Some(Partial(f.applied, f.rejected)), run)
  }

  /** The gate of a call no hook and no plan mode stopped. */
  function Gate(call: ToolCall, c: Circumstance): Routing {
    if c.gate == Forbid then Stopped(Failure(call, "forbidden"))
    else if !MustAsk(call.name, c) then Cleared(call, None, c.run)
    else Decided(call, if ClassifiedAllow(call.name, c) then ALLOW_ALL else Requested(c), c.run)
  }

  function Route(call: ToolCall, c: Circumstance): Routing {
    if c.planMode && c.refusal.Some? then Blocked(Failure(call, c.refusal.value))
    else if c.hook.Some? then Blocked(Failure(call, c.hook.value))
    else Gate(call, c)
  }

  function Routes(calls: seq<ToolCall>, cs: seq<Circumstance>): (rs: seq<Routing>)
    requires |cs| >= |calls|
    ensures |rs| == |calls|
  {
    seq(|calls|, i requires 0 <= i < |calls| => Route(calls[i], cs[i]))
  }

  // ---------------------------------------------------------------- running what may run

  /** A call and what it met. */
  datatype Trial = Trial(call: ToolCall, c: Circumstance)

  function Trials(calls: seq<ToolCall>, cs: seq<Circumstance>): (trials: seq<Trial>)
    requires |cs| >= |calls|
    ensures |trials| == |calls|
  {
    seq(|calls|, i requires 0 <= i < |calls| => Trial(calls[i], cs[i]))
  }

  /** The calls of a batch that are run. */
  function Started(calls: seq<ToolCall>, cs: seq<Circumstance>): seq<Trial>
    requires |cs| >= |calls|
  {
    if calls == [] then []
    else if Route(calls[0], cs[0]).Cleared? then [Trial(calls[0], cs[0])] + Started(calls[1..], cs[1..])
    else Started(calls[1..], cs[1..])
  }

  function BlockedIn(rs: seq<Routing>): seq<ToolResult> {
    if rs == [] then []
    else if rs[0].Blocked? then [rs[0].result] + BlockedIn(rs[1..])
    else BlockedIn(rs[1..])
  }

  function StoppedIn(rs: seq<Routing>): seq<ToolResult> {
    if rs == [] then []
    else if rs[0].Stopped? then [rs[0].result] + StoppedIn(rs[1..])
    else StoppedIn(rs[1..])
  }

  function ClearedIn(rs: seq<Routing>): (cleared: seq<Routing>)
    ensures forall i :: 0 <= i < |cleared| ==> cleared[i].Cleared?
  {
    if rs == [] then []
    else if rs[0].Cleared? then [rs[0]] + ClearedIn(rs[1..])
    else ClearedIn(rs[1..])
  }

  predicate AllCleared(rs: seq<Routing>) {
    forall i :: 0 <= i < |rs| ==> rs[i].Cleared?
  }

  predicate IsParallelSafe(name: string) {
    name in {"read", "ls", "ripgrep", "outline"}
  }

  predicate RunsParallel(cleared: seq<Routing>)
    requires AllCleared(cleared)
  {
    |cleared| > 1 && forall i :: 0 <= i < |cleared| ==> IsParallelSafe(cleared[i].call.name)
  }

  /** The approvals of a part of a call, by call id; of two with one id the later is kept. */
  function Partials(cleared: seq<Routing>): map<string, Partial>
    requires AllCleared(cleared)
  {
    if cleared == [] then map[]
    else
      var last := cleared[|cleared| - 1];
      var before := Partials(cleared[..|cleared| - 1]);
      if last.partial.Some? then before[last.call.id := last.partial.value] else before
  }

  function Lookup(partials: map<string, Partial>, id: string): Option<Partial> {
    if id in partials then Some(partials[id]) else None
  }

  /** One after the other; each takes the approval kept under its id. */
  function RunInOrder(cleared: seq<Routing>, partials: map<string, Partial>): seq<ToolResult>
    requires AllCleared(cleared)
  {
    if cleared == [] then []
    else
      var c := cleared[0];
      [ToolResult(c.call, c.run, Lookup(partials, c.call.id))] + RunInOrder(cleared[1..], partials - {c.call.id})
  }

  function PlainResults(cleared: seq<Routing>): (results: seq<ToolResult>)
    requires AllCleared(cleared)
    ensures |results| == |cleared|
  {
    seq(|cleared|, i requires 0 <= i < |cleared| => ToolResult(cleared[i].call, cleared[i].run, None))
  }

  /** Every worker was heard from. */
  predicate AllFinish(completions: seq<nat>, n: nat) {
    |completions| >= n
  }

  function Execute(cleared: seq<Routing>, completions: seq<nat>): Result<seq<ToolResult>>
    requires AllCleared(cleared)
  {
    if !RunsParallel(cleared) then Ok(RunInOrder(cleared, Partials(cleared)))
    else if AllFinish(completions, |cleared|) then Ok(PlainResults(cleared))
    else Err("parallel tool worker failed")
  }

  // ---------------------------------------------------------------- what the model is told

  function OutputItems(results: seq<ToolResult>): (items: seq<Item>)
    ensures |items| == |results|
  {
    seq(|results|, i requires 0 <= i < |results| => CallOutput(results[i].call.id, results[i].run, results[i].summary))
  }

  function ImageItems(results: seq<ToolResult>): seq<Item> {
    if results == [] then []
    else (if results[0].run.image.Some? then [Image(results[0].run.image.value)] else []) + ImageItems(results[1..])
  }

  predicate PlanDelivered(results: seq<ToolResult>) {
    exists i :: 0 <= i < |results| && results[i].call.name == "propose_plan" && !results[i].run.isError
  }

  /** The results of a batch: the calls that ran, then those that did not. */
  function BatchResults(rs: seq<Routing>, completions: seq<nat>): Result<seq<ToolResult>> {
    match Execute(ClearedIn(rs), completions)
    case Err(e) => Err(e)
    case Ok(ran) => Ok(ran + (BlockedIn(rs) + StoppedIn(rs)))
  }

  // ---------------------------------------------------------------- the loop

  /** `requests` counts the model requests made; `tried` is every call that was let into a batch, and `ran`
      those of them that were started. */
  datatype Turn = Turn(input: seq<Item>, executed: nat, empties: nat, requests: nat, tried: seq<Trial>, ran: seq<Trial>)

  datatype Progress = Going(turn: Turn) | Ended(turn: Turn, result: Result<()>)

  function Users(texts: seq<string>): (items: seq<Item>)
    ensures |items| == |texts|
  {
    seq(|texts|, i requires 0 <= i < |texts| => User(texts[i]))
  }

  function WithoutCalls(t: Turn, items: seq<OutputItem>): Progress {
    if IsEmptyResponse(items) && t.empties < MAX_EMPTY_RESPONSE_CONTINUATIONS then
      Going(t.(input := t.input + [Reminder], empties := t.empties + 1))
    else Ended(t, Ok(()))
  }

  function FinishBatch(t: Turn, rs: seq<Routing>, completions: seq<nat>): Progress {
    match BatchResults(rs, completions)
    case Err(e) => Ended(t, Err(e))
    case Ok(results) =>
      var u := t.(input := t.input + (OutputItems(results) + ImageItems(results)));
      if PlanDelivered(results) then Ended(u, Ok(())) else Going(u)
  }

  function WithCalls(cfg: Config, t: Turn, calls: seq<OutputItem>, r: Reply): Progress
    requires forall i :: 0 <= i < |calls| ==> calls[i].FunctionCall?
  {
    var begun := t.(empties := 0);
    match Requests(calls, r.late)
    case Err(e) => Ended(begun, Err(e))
    case Ok(requests) =>
      if OverBudget(cfg, t.executed, |requests|) then Ended(begun, Err("subagent exceeded tool budget"))
      else if |r.circumstances| < |requests| then Ended(begun, Err("interrupted"))
      else
        FinishBatch(begun.(executed := SaturatingAdd(t.executed, |requests|),
                           tried := t.tried + Trials(requests, r.circumstances),
                           ran := t.ran + Started(requests, r.circumstances)),
                    Routes(requests, r.circumstances), r.completions)
  }

  function Answered(cfg: Config, t: Turn, items: seq<OutputItem>, r: Reply): Progress {
    FunctionCallsAreCalls(items);
    var u := t.(input := t.input + Outputs(items));
    if FunctionCalls(items) == [] then WithoutCalls(u, items) else WithCalls(cfg, u, FunctionCalls(items), r)
  }

  lemma FunctionCallsAreCalls(items: seq<OutputItem>)
    ensures forall i :: 0 <= i < |FunctionCalls(items)| ==> FunctionCalls(items)[i].FunctionCall?
  {
  }

  /** One turn of the loop. */
  function OneRequest(cfg: Config, t: Turn, r: Reply): Progress {
    if r.timedOut then Ended(t, Err("subagent timed out"))
    else if cfg.headroom > 0 && r.grown > cfg.headroom then Ended(t, Err("mid-turn compaction"))
    else
      var u := t.(input := t.input + Users(r.steered), requests := t.requests + 1);
      match r.answer
      case Err(e) => Ended(u, Err(e))
      case Ok(items) => Answered(cfg, u, items, r)
  }

  /** The turn as far as the script goes. */
  function RunTurn(cfg: Config, t: Turn, script: seq<Reply>): Progress
    decreases |script|
  {
    if script == [] then Going(t)
    else
      match OneRequest(cfg, t, script[0])
      case Ended(u, result) => Ended(u, result)
      case Going(u) => RunTurn(cfg, u, script[1..])
  }
}
