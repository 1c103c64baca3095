/** Tool calls that wait for a decision: the worker asks, and the core allows the call, parks it for
    the user, or defers it when nobody watches (crates/agent-core/src/core.rs, config.rs). */
module ApprovalState {
  import opened Common

  // ---------------------------------------------------------------- the policy

  datatype ApprovalMode = Manual | AutoEdit | Auto | FullAccess | Plan

  predicate IsMcpTool(name: string) {
    "mcp__" <= name
  }

  predicate IsShellTool(name: string) {
    name in {"bash", "execute", "exec_command", "shell_command", "write_stdin"}
  }

  predicate IsEditTool(name: string) {
    name in {"hashline_edit", "str_replace", "edit", "write", "apply_patch"}
  }

  predicate IsNetworkTool(name: string) {
    name in {"web_fetch", "web_search"}
  }

  predicate RequiresApprovalForMcp(mode: ApprovalMode, readOnlyHint: bool) {
    match mode
    case Manual => true
    case Plan => true
    case AutoEdit => !readOnlyHint
    case Auto => !readOnlyHint
    case FullAccess => false
  }

  predicate RequiresApproval(mode: ApprovalMode, name: string) {
    if IsMcpTool(name) then RequiresApprovalForMcp(mode, false)
    else if IsShellTool(name) then mode != FullAccess
    else if IsEditTool(name) || name == "generate_image" then mode.Manual? || mode.Plan?
    else IsNetworkTool(name) && (mode.Manual? || mode.Plan?)
  }

  // ---------------------------------------------------------------- entities

  /** A hexadecimal digest of a call's name, arguments and directory. */
  type Digest = d: string | |d| >= 8 witness "00000000"

  /** `ticket` is the request's own answer channel. */
  datatype Request = Request(ticket: nat, callId: string, name: string, hunkIds: seq<string>, digest: Digest)

  datatype Decision = Decision(allow: bool, hunks: Option<seq<string>>, deferred: Option<string>)

  const ALLOW_ALL := Decision(true, None, None)
  const DENY := Decision(false, None, None)

  /** What an answer channel carried: a decision, or only its sender's end, which reads as a denial. */
  datatype Outcome = Sent(decision: Decision) | Dropped

  /** `asked` is every request by ticket, `answers` what each ticket's channel carried. `listening` says
      the worker's channel of requests is open. */
  datatype Channels = Channels(listening: bool, waiting: seq<Request>, asked: seq<Request>, answers: seq<seq<Outcome>>)

  datatype Desk = Desk(mode: ApprovalMode, attended: bool, approvedTools: set<string>,
                       pending: map<string, Request>, open: map<string, Request>, decisions: map<Digest, bool>,
                       channels: Channels)

  const INITIAL := Desk(Manual, true, {}, map[], map[], map[], Channels(false, [], [], []))

  /** A parked call taken up, and the clock's milliseconds then. */
  datatype Visit = Visit(callId: string, now: nat)

  datatype Label =
    | Ask(callId: string, name: string, hunkIds: seq<string>, digest: Digest)
    | HandleNext(now: nat)
    | SetAttended(attended: bool, visits: seq<Visit>)
    | SetMode(mode: ApprovalMode)
    | Resolve(callId: string, allow: bool, always: bool, hunks: Option<seq<string>>)
    | DecideAction(id: string, allow: bool)
    | Reset(listening: bool)

  // ---------------------------------------------------------------- answering

  function Send(c: Channels, ticket: nat, outcome: Outcome): Channels {
    if ticket < |c.answers| then c.(answers := c.answers[ticket := c.answers[ticket] + [outcome]]) else c
  }

  function Answer(s: Desk, ticket: nat, outcome: Outcome): Desk {
    s.(channels := Send(s.channels, ticket, outcome))
  }

  /** The ticket belongs to a call of `calls` that is parked. */
  predicate IsParkedIn(c: Channels, pending: map<string, Request>, calls: set<string>, ticket: nat)
    requires ticket < |c.asked|
  {
    var r := c.asked[ticket];
    r.callId in calls && r.callId in pending && pending[r.callId] == r
  }

  /** Every parked call of `calls` is answered the same. */
  function SendParked(c: Channels, pending: map<string, Request>, calls: set<string>, outcome: Outcome): Channels {
    c.(answers := seq(|c.answers|, t requires 0 <= t < |c.answers| =>
      if t < |c.asked| && IsParkedIn(c, pending, calls, t) then c.answers[t] + [outcome] else c.answers[t]))
  }

  function SendWaiting(c: Channels, outcome: Outcome): Channels {
    c.(waiting := [],
       answers := seq(|c.answers|, t requires 0 <= t < |c.answers| =>
         if t < |c.asked| && c.asked[t] in c.waiting then c.answers[t] + [outcome] else c.answers[t]))
  }

  // ---------------------------------------------------------------- the worker asks

  function AskApproval(s: Desk, callId: string, name: string, hunkIds: seq<string>, digest: Digest): Desk {
    var c := s.channels;
    var r := Request(|c.asked|, callId, name, hunkIds, digest);
    s.(channels := if c.listening then Issue(c.(waiting := c.waiting + [r]), r, []) else Issue(c, r, [Dropped]))
  }

  function Issue(c: Channels, r: Request, answer: seq<Outcome>): Channels {
    c.(asked := c.asked + [r], answers := c.answers + [answer])
  }

  // ---------------------------------------------------------------- the core decides

  function ActionId(now: nat, digest: Digest): string {
    "act-" + Decimal(now) + "-" + digest[..8]
  }

  /** An open action with this digest. */
  ghost function OpenWith(open: map<string, Request>, digest: Digest): (id: Option<string>)
    ensures id.Some? ==> id.value in open && open[id.value].digest == digest
    ensures id.None? ==> forall other :: other in open ==> open[other].digest != digest
  {
    if id :| id in open && open[id].digest == digest then Some(id) else None
  }

  /** What `defer_call` answers: an earlier decision on the same call, or a deferred action. */
  ghost function DeferDecision(s: Desk, digest: Digest, now: nat): Decision {
    if digest in s.decisions then (if s.decisions[digest] then ALLOW_ALL else DENY)
    else
      var id := OpenWith(s.open, digest);
      Decision(false, None, if id.Some? then id else Some(ActionId(now, digest)))
  }

  ghost function DeferOpen(s: Desk, r: Request, now: nat): map<string, Request> {
    if r.digest in s.decisions || OpenWith(s.open, r.digest).Some? then s.open
    else s.open[ActionId(now, r.digest) := r]
  }

  ghost function Defer(s: Desk, r: Request, now: nat): Desk {
    Answer(s.(open := DeferOpen(s, r, now)), r.ticket, Sent(DeferDecision(s, r.digest, now)))
  }

  /** A second request under a parked call id takes its place, and the first one's sender is dropped. */
  function Park(s: Desk, r: Request): Desk {
    var t := if r.callId in s.pending then Answer(s, s.pending[r.callId].ticket, Dropped) else s;
    t.(pending := s.pending[r.callId := r])
  }

  ghost function Handle(s: Desk, r: Request, now: nat): Desk {
    if r.name in s.approvedTools || !RequiresApproval(s.mode, r.name) then Answer(s, r.ticket, Sent(ALLOW_ALL))
    else if !s.attended then Defer(s, r, now)
    else Park(s, r)
  }

  /** One turn of `poll_approval_requests`' loop. */
  ghost function HandleFirst(s: Desk, now: nat): Desk {
    if !s.channels.listening || s.channels.waiting == [] then s
    else Handle(s.(channels := s.channels.(waiting := s.channels.waiting[1..])), s.channels.waiting[0], now)
  }

  /** The visits name each parked call once. */
  predicate VisitsEach(visits: seq<Visit>, pending: map<string, Request>) {
    && (forall i :: 0 <= i < |visits| ==> visits[i].callId in pending)
    && (forall i, j :: 0 <= i < j < |visits| ==> visits[i].callId != visits[j].callId)
    && (forall c :: c in pending ==> exists i :: 0 <= i < |visits| && visits[i].callId == c)
  }

  ghost function DeferParked(s: Desk, visits: seq<Visit>): Desk
    decreases |visits|
  {
    if visits == [] then s
    else
      var call := visits[0].callId;
      if call !in s.pending then DeferParked(s, visits[1..])
      else DeferParked(Defer(s.(pending := s.pending - {call}), s.pending[call], visits[0].now), visits[1..])
  }

  /** `set_attended`: the map is walked in any order, at any times. */
  ghost function Attend(s: Desk, attended: bool, visits: seq<Visit>): Desk {
    if attended then s.(attended := true)
    else if VisitsEach(visits, s.pending) then DeferParked(s.(attended := false), visits)
    else s
  }

  function Freed(pending: map<string, Request>, mode: ApprovalMode): set<string> {
    set c | c in pending && !RequiresApproval(mode, pending[c].name)
  }

  function SwitchMode(s: Desk, mode: ApprovalMode): Desk {
    var freed := Freed(s.pending, mode);
    s.(mode := mode, pending := s.pending - freed, channels := SendParked(s.channels, s.pending, freed, Sent(ALLOW_ALL)))
  }

  // ---------------------------------------------------------------- the user decides

  datatype Refusal = NoPendingApproval | HunksWithAlways | HunksWithDeny | NoHunkSelection | NoHunkIds | UnknownHunk(id: string)

  function FirstUnknown(requested: seq<string>, known: seq<string>): Option<string> {
    if requested == [] then None
    else if requested[0] !in known then Some(requested[0])
    else FirstUnknown(requested[1..], known)
  }

  function CheckSelection(known: seq<string>, requested: seq<string>, allow: bool, always: bool): Option<Refusal> {
    if always then Some(HunksWithAlways)
    else if !allow then Some(HunksWithDeny)
    else if known == [] then Some(NoHunkSelection)
    else if requested == [] then Some(NoHunkIds)
    else
      var unknown := FirstUnknown(requested, known);
      if unknown.Some? then Some(UnknownHunk(unknown.value)) else None
  }

  function CheckResolve(s: Desk, callId: string, allow: bool, always: bool, hunks: Option<seq<string>>): Option<Refusal> {
    if callId !in s.pending then Some(NoPendingApproval)
    else if hunks.None? then None
    else CheckSelection(s.pending[callId].hunkIds, hunks.value, allow, always)
  }

  /** Each id at its first occurrence. */
  function Dedup(ids: seq<string>): seq<string> {
    if ids == [] then []
    else
      var before, last := Dedup(ids[..|ids| - 1]), ids[|ids| - 1];
      if last in before then before else before + [last]
  }

  function Chosen(hunks: Option<seq<string>>): Option<seq<string>> {
    if hunks.None? then None else Some(Dedup(hunks.value))
  }

  /** `resolve_approval_decision`. */
  function ResolveDecision(s: Desk, callId: string, allow: bool, always: bool, hunks: Option<seq<string>>): Desk {
    if callId !in s.pending || CheckResolve(s, callId, allow, always, hunks).Some? then s
    else
      var r := s.pending[callId];
      var tools := if allow && always then s.approvedTools + {r.name} else s.approvedTools;
      Answer(s.(pending := s.pending - {callId}, approvedTools := tools), r.ticket,
             Sent(Decision(allow, Chosen(hunks), None)))
  }

  function Decide(s: Desk, id: string, allow: bool): Desk {
    if id !in s.open then s
    else s.(open := s.open - {id}, decisions := s.decisions[s.open[id].digest := allow])
  }

  /** A turn stops, or another is spawned: what waits and what is parked loses its sender. */
  function ResetChannels(s: Desk, listening: bool): Desk {
    var c := SendParked(s.channels, s.pending, s.pending.Keys, Dropped);
    s.(pending := map[], channels := SendWaiting(c, Dropped).(listening := listening))
  }

  // ---------------------------------------------------------------- one step of a run

  ghost function Apply(s: Desk, l: Label): Desk {
    match l
    case Ask(callId, name, hunkIds, digest) => AskApproval(s, callId, name, hunkIds, digest)
    case HandleNext(now) => HandleFirst(s, now)
    case SetAttended(attended, visits) => Attend(s, attended, visits)
    case SetMode(mode) => SwitchMode(s, mode)
    case Resolve(callId, allow, always, hunks) => ResolveDecision(s, callId, allow, always, hunks)
    case DecideAction(id, allow) => Decide(s, id, allow)
    case Reset(listening) => ResetChannels(s, listening)
  }

  ghost function Run(s: Desk, labels: seq<Label>): Desk {
    if labels == [] then s else Apply(Run(s, labels[..|labels| - 1]), labels[|labels| - 1])
  }
}
