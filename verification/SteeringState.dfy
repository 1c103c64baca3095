/** User messages on their way to the session: the queue, messages steered into a running turn, and
    the worker thread that reads them (crates/agent-core/src/core.rs, crates/agent-core/src/llm.rs).

    The core and the worker share an inbox and an event channel. Every transition below is one step
    of one of them, so a run is any interleaving. */
module SteeringState {
  import opened Common

  datatype Message = Message(text: string, images: seq<string>)

  datatype WorkerEvent =
    | Steered(text: string)
    | ResponseItem
    | Other
    | Done
    | MidTurnCompaction
    | ContextOverflow
    | Failed

  predicate Terminal(e: WorkerEvent) {
    e.Done? || e.MidTurnCompaction? || e.ContextOverflow? || e.Failed?
  }

  /** What runs: nothing, a turn spawned on the conversation, or `/compact`. */
  datatype Mode = Idle | Turn | Compacting

  /** The subagent manager's inbox, and the worker: what it drained and has not announced, what it
      sent, whether it has ended, and how far it may grow before it stops for compaction.
      `lingering` says an interrupted worker still holds the manager the inbox belongs to. */
  datatype Worker = Worker(inbox: seq<string>, batch: seq<string>, channel: seq<WorkerEvent>,
                           ended: bool, headroom: bool, lingering: bool)

  datatype Flags = Flags(keepSubagents: bool, forceCompaction: bool, retryPending: bool, overflowRetried: bool)

  /** What was submitted, and where it went besides the queue and the unread steers: recorded in the
      session, taken back by the user, blocked by the hook, or cleared with a session. */
  datatype Ledger = Ledger(submitted: multiset<Message>, recorded: seq<Message>, takenBack: multiset<Message>,
                           blocked: multiset<Message>, cleared: multiset<Message>)

  datatype State = State(mode: Mode, queued: seq<Message>, steered: seq<string>,
                         worker: Worker, flags: Flags, ledger: Ledger)

  const INITIAL := State(Idle, [], [], Worker([], [], [], false, false, false), Flags(false, false, false, false),
                         Ledger(multiset{}, [], multiset{}, multiset{}, multiset{}))

  /** What `spawn_current_context_turn` meets: a failure, or a worker. `plan` says the conversation has
      something to compact, `auto` that it is over the threshold, `below` that it is under the budget. */
  datatype Spawn =
    | NoCredentials
    | NoClient
    | Spawned(plan: bool, auto: bool, below: bool)

  datatype Label =
    // The user, through the core.
    | Submit(message: Message, hookAllows: bool, spawn: Spawn)
    | Steer(index: Option<int>, hookAllows: bool, spawn: Spawn)
    | InterruptSend(index: Option<int>, hookAllows: bool, spawn: Spawn)
    | Unqueue(index: Option<int>)
    | QueueMove(from: Option<int>, to: Option<int>)
    | Interrupt
    | ContinueTurn(hasTurns: bool, spawn: Spawn)
    | CompactCommand
    | SwitchSession
    // The core's poll loop.
    | Receive(canCompact: bool)
    | PollIdle(goalActive: bool, hookAllows: bool, spawn: Spawn)
    // The worker, and a worker that was interrupted.
    | DrainInbox
    | Announce
    | Send(event: WorkerEvent)
    | LingeringDrain

  // ---------------------------------------------------------------- positions in the queue

  /** `queue_index`: the first message when absent; negative counts from the last. */
  function QueueIndex(index: Option<int>, len: nat): (at: Option<nat>)
    ensures at.Some? ==> at.value < len
  {
    var i := if index.None? then 0 else index.value;
    if i < 0 then
      if -i <= len then Some(len + i) else None
    else if i < len then Some(i)
    else None
  }

  function QueueMoveTarget(from: Option<int>, to: Option<int>, len: nat): (r: Option<(nat, nat)>)
    ensures r.Some? ==> r.value.0 < len && r.value.1 < len && r.value.0 != r.value.1
  {
    var source := QueueIndex(from, len);
    if source.None? || to.None? then None
    else
      var target := QueueIndex(to, len);
      if target.None? || source == target then None else Some((source.value, target.value))
  }

  function RemoveAt<T>(s: seq<T>, at: nat): seq<T>
    requires at < |s|
  {
    s[..at] + s[at + 1..]
  }

  function InsertAt<T>(s: seq<T>, at: nat, x: T): seq<T>
    requires at <= |s|
  {
    s[..at] + [x] + s[at..]
  }

  function MoveToFront<T>(s: seq<T>, at: nat): seq<T>
    requires at < |s|
  {
    [s[at]] + RemoveAt(s, at)
  }

  // ---------------------------------------------------------------- the core

  function AsMessages(texts: seq<string>): (ms: seq<Message>)
    ensures |ms| == |texts|
  {
    seq(|texts|, i requires 0 <= i < |texts| => Message(texts[i], []))
  }

  /** `requeue_unread_steers`. */
  function Requeue(s: State): State {
    s.(queued := AsMessages(s.steered) + s.queued, steered := [], worker := s.worker.(inbox := []))
  }

  function Record(l: Ledger, message: Message): Ledger {
    l.(recorded := l.recorded + [message])
  }

  function Block(l: Ledger, message: Message): Ledger {
    l.(blocked := l.blocked + multiset{message})
  }

  /** Whether the turn starts by compacting. */
  predicate Compacts(f: Flags, spawn: Spawn)
    requires spawn.Spawned?
  {
    (f.forceCompaction || spawn.auto) && spawn.plan
  }

  /** `spawn_current_context_turn`. */
  function SpawnTurn(s: State, spawn: Spawn): State {
    var flags := s.flags.(keepSubagents := false);
    if spawn.NoCredentials? then Requeue(s).(flags := flags)
    else
      var t := if s.flags.keepSubagents then s else Requeue(s);
      var lingering := s.flags.keepSubagents && s.worker.lingering;
      if spawn.NoClient? then t.(flags := flags, worker := t.worker.(lingering := lingering))
      else
        var headroom := !Compacts(s.flags, spawn) && spawn.below && spawn.plan;
        t.(mode := Turn, flags := flags.(forceCompaction := false),
           worker := Worker(t.worker.inbox, [], [], false, headroom, lingering))
  }

  /** `start_turn`. */
  function StartTurn(s: State, message: Message, spawn: Spawn): State {
    SpawnTurn(s.(flags := s.flags.(overflowRetried := false), ledger := Record(s.ledger, message)), spawn)
  }

  /** `start_hooked_turn`. */
  function StartHookedTurn(s: State, message: Message, hookAllows: bool, spawn: Spawn): State {
    if hookAllows then StartTurn(s, message, spawn) else s.(ledger := Block(s.ledger, message))
  }

  /** `stop_current_turn`: the worker is left behind with the manager it holds. */
  function Stop(s: State): State {
    Requeue(s).(mode := Idle,
                worker := Worker([], [], [], false, s.worker.headroom, s.worker.lingering || s.mode.Turn?))
  }

  /** Starts the first queued message. */
  function StartFirst(s: State, hookAllows: bool, spawn: Spawn): State
    requires s.queued != []
  {
    StartHookedTurn(s.(queued := s.queued[1..]), s.queued[0], hookAllows, spawn)
  }

  /** `restart_with_first`. */
  function RestartWithFirst(s: State, hookAllows: bool, spawn: Spawn): State {
    if Stop(s).queued == [] then Stop(s) else StartFirst(Stop(s), hookAllows, spawn)
  }

  function SubmitMessage(s: State, message: Message, hookAllows: bool, spawn: Spawn): State {
    var t := s.(ledger := s.ledger.(submitted := s.ledger.submitted + multiset{message}));
    if s.mode != Idle then t.(queued := t.queued + [message]) else StartHookedTurn(t, message, hookAllows, spawn)
  }

  /** The queue with message `at` moved to its front. */
  function ToFront(s: State, at: nat): (t: State)
    requires at < |s.queued|
    ensures t.queued != []
  {
    s.(queued := MoveToFront(s.queued, at))
  }

  /** Sends the first queued message into the running turn. */
  function SteerFirst(s: State, hookAllows: bool): State
    requires s.queued != []
  {
    var first, t := s.queued[0], s.(queued := s.queued[1..]);
    if !hookAllows then t.(ledger := Block(t.ledger, first))
    else t.(steered := t.steered + [first.text], worker := t.worker.(inbox := t.worker.inbox + [first.text]))
  }

  /** A message with images cannot be steered: it starts a turn of its own. */
  function SteerOrRestart(s: State, hookAllows: bool, spawn: Spawn): State
    requires s.queued != []
  {
    if s.queued[0].images == [] then SteerFirst(s, hookAllows) else RestartWithFirst(s, hookAllows, spawn)
  }

  function SteerMessage(s: State, index: Option<int>, hookAllows: bool, spawn: Spawn): State {
    var at := QueueIndex(index, |s.queued|);
    if at.None? || s.mode == Idle then s
    else SteerOrRestart(ToFront(s, at.value), hookAllows, spawn)
  }

  function InterruptAndSend(s: State, index: Option<int>, hookAllows: bool, spawn: Spawn): State {
    var at := QueueIndex(index, |s.queued|);
    if at.None? || s.mode == Idle then s else RestartWithFirst(ToFront(s, at.value), hookAllows, spawn)
  }

  function TakeBack(s: State, index: Option<int>): State {
    var at := QueueIndex(index, |s.queued|);
    if at.None? then s
    else
      s.(queued := RemoveAt(s.queued, at.value),
         ledger := s.ledger.(takenBack := s.ledger.takenBack + multiset{s.queued[at.value]}))
  }

  function MoveQueued(s: State, from: Option<int>, to: Option<int>): State {
    var target := QueueMoveTarget(from, to, |s.queued|);
    if target.None? then s
    else
      var (source, place) := target.value;
      s.(queued := InsertAt(RemoveAt(s.queued, source), place, s.queued[source]))
  }

  /** `new_session_events` and resuming another session. */
  function ClearQueue(s: State): State {
    if s.mode != Idle then s
    else s.(queued := [], ledger := s.ledger.(cleared := s.ledger.cleared + multiset(s.queued)))
  }

  function Continue(s: State, hasTurns: bool, spawn: Spawn): State {
    if s.mode != Idle || !hasTurns then s
    else SpawnTurn(s.(flags := s.flags.(overflowRetried := false)), spawn)
  }

  /** `compact_command_events`: a summarizing worker on the manager there is. */
  function Compact(s: State): State {
    if s.mode != Idle then s
    else s.(mode := Compacting, worker := Worker(s.worker.inbox, [], [], false, false, s.worker.lingering))
  }

  /** Removes the first occurrence, as the search of the `Steered` arm does. */
  function WithoutFirst(texts: seq<string>, text: string): seq<string> {
    if texts == [] then []
    else if texts[0] == text then texts[1..]
    else [texts[0]] + WithoutFirst(texts[1..], text)
  }

  /** Whether the core answers this worker event by compacting and retrying. */
  predicate CompactsAndRetries(f: Flags, e: WorkerEvent, canCompact: bool) {
    e.MidTurnCompaction? || (e.ContextOverflow? && !f.overflowRetried && canCompact)
  }

  function ReceiveLast(s: State, e: WorkerEvent, canCompact: bool): State {
    if CompactsAndRetries(s.flags, e, canCompact) then
      s.(mode := Idle, flags := Flags(s.flags.keepSubagents || e.MidTurnCompaction?, true, true, true))
    else Requeue(s).(mode := Idle)
  }

  /** The arms of `poll_events`' receive loop. */
  function HandleEvent(s: State, e: WorkerEvent, canCompact: bool): State {
    match e
    case Steered(text) => s.(steered := WithoutFirst(s.steered, text), ledger := Record(s.ledger, Message(text, [])))
    case ResponseItem => s.(flags := s.flags.(overflowRetried := false))
    case Other => s
    case _ => ReceiveLast(s, e, canCompact)
  }

  function ReceiveEvent(s: State, canCompact: bool): State {
    if s.mode == Idle || s.worker.channel == [] then s
    else HandleEvent(s.(worker := s.worker.(channel := s.worker.channel[1..])), s.worker.channel[0], canCompact)
  }

  /** What `poll_events` does once nothing runs. */
  function PollWhenIdle(s: State, goalActive: bool, hookAllows: bool, spawn: Spawn): State {
    if s.mode != Idle then s
    else if s.flags.retryPending then SpawnTurn(s.(flags := s.flags.(retryPending := false)), spawn)
    else if s.queued != [] then StartFirst(s, hookAllows, spawn)
    else if goalActive then SpawnTurn(s, spawn)
    else s
  }

  // ---------------------------------------------------------------- the worker

  /** Between two requests the worker takes the whole inbox, then announces message by message. */
  function Drain(s: State): State {
    if s.mode != Turn || s.worker.ended || s.worker.batch != [] then s
    else s.(worker := s.worker.(batch := s.worker.inbox, inbox := []))
  }

  function AnnounceNext(s: State): State {
    if s.mode != Turn || s.worker.batch == [] then s
    else
      s.(worker := s.worker.(batch := s.worker.batch[1..],
                             channel := s.worker.channel + [Steered(s.worker.batch[0])]))
  }

  predicate MaySend(s: State, event: WorkerEvent) {
    && s.mode != Idle && !s.worker.ended && s.worker.batch == []
    && match event
       case Steered(_) => false
       case ResponseItem => s.mode == Turn
       case Other => true
       case Done => true
       case MidTurnCompaction => s.mode == Turn && s.worker.headroom
       case _ => s.mode == Turn
  }

  function SendEvent(s: State, event: WorkerEvent): State {
    if !MaySend(s, event) then s
    else s.(worker := s.worker.(channel := s.worker.channel + [event], ended := Terminal(event)))
  }

  /** An interrupted worker may still drain the inbox of the manager it holds; what it sends is lost. */
  function LingeringDrains(s: State): State {
    if s.worker.lingering then s.(worker := s.worker.(inbox := [])) else s
  }

  // ---------------------------------------------------------------- one step of a run

  function Apply(s: State, l: Label): State {
    match l
    case Submit(message, hookAllows, spawn) => SubmitMessage(s, message, hookAllows, spawn)
    case Steer(index, hookAllows, spawn) => SteerMessage(s, index, hookAllows, spawn)
    case InterruptSend(index, hookAllows, spawn) => InterruptAndSend(s, index, hookAllows, spawn)
    case Unqueue(index) => TakeBack(s, index)
    case QueueMove(from, to) => MoveQueued(s, from, to)
    case Interrupt => if s.mode == Idle then s else Stop(s)
    case ContinueTurn(hasTurns, spawn) => Continue(s, hasTurns, spawn)
    case CompactCommand => Compact(s)
    case SwitchSession => ClearQueue(s)
    case Receive(canCompact) => ReceiveEvent(s, canCompact)
    case PollIdle(goalActive, hookAllows, spawn) => PollWhenIdle(s, goalActive, hookAllows, spawn)
    case DrainInbox => Drain(s)
    case Announce => AnnounceNext(s)
    case Send(event) => SendEvent(s, event)
    case LingeringDrain => LingeringDrains(s)
  }

  /** The state after a run of steps. */
  function Run(s: State, labels: seq<Label>): State {
    if labels == [] then s else Apply(Run(s, labels[..|labels| - 1]), labels[|labels| - 1])
  }
}
