/** What every run keeps: no message is lost or recorded twice, steers stay in order, and compaction
    never restarts a turn twice without progress in between. */
module SteeringTheorems {
  import opened Common
  import opened SteeringState

  // ---------------------------------------------------------------- invariants

  function SteeredTexts(channel: seq<WorkerEvent>): seq<string> {
    if channel == [] then []
    else (if channel[0].Steered? then [channel[0].text] else []) + SteeredTexts(channel[1..])
  }

  predicate IsSuffix(part: seq<string>, whole: seq<string>) {
    |part| <= |whole| && whole[|whole| - |part|..] == part
  }

  /** A worker's last event, and only it, is terminal. */
  predicate EndsOnce(mode: Mode, w: Worker) {
    && (forall i :: 0 <= i < |w.channel| && Terminal(w.channel[i]) ==> i == |w.channel| - 1 && w.ended)
    && (w.ended && mode != Idle ==> w.batch == [] && w.channel != [] && Terminal(w.channel[|w.channel| - 1]))
    && (forall i :: 0 <= i < |w.channel| && w.channel[i].MidTurnCompaction? ==> w.headroom)
  }

  /** Where unread steers are. In a turn: announced, then drained, then in the inbox. */
  predicate SteersInOrder(mode: Mode, steered: seq<string>, w: Worker, f: Flags) {
    match mode
    case Turn =>
      steered == SteeredTexts(w.channel) + w.batch + w.inbox && !w.lingering && !f.keepSubagents && !f.forceCompaction
    case Idle => steered == w.inbox && w.batch == [] && w.channel == [] && (w.lingering ==> steered == [])
    case Compacting =>
      && IsSuffix(w.inbox, steered) && (!w.lingering ==> w.inbox == steered)
      && w.batch == [] && SteeredTexts(w.channel) == []
      && forall i :: 0 <= i < |w.channel| ==> w.channel[i].Other? || w.channel[i].Done?
  }

  predicate Inv(s: State) {
    && EndsOnce(s.mode, s.worker)
    && SteersInOrder(s.mode, s.steered, s.worker, s.flags)
    && (s.flags.keepSubagents ==> !s.worker.lingering)
  }

  /** Every submitted message is in exactly one place. */
  predicate Balanced(s: State) {
    s.ledger.submitted ==
    multiset(s.queued) + s.ledger.takenBack + s.ledger.blocked + s.ledger.cleared +
    multiset(AsMessages(s.steered)) + multiset(s.ledger.recorded)
  }

  // ---------------------------------------------------------------- small facts about the queue

  lemma RemoveAtContents<T>(s: seq<T>, at: nat)
    requires at < |s|
    ensures multiset(RemoveAt(s, at)) + multiset{s[at]} == multiset(s)
    ensures multiset(MoveToFront(s, at)) == multiset(s)
  {
    assert s == s[..at] + [s[at]] + s[at + 1..];
  }

  lemma InsertAtContents<T>(s: seq<T>, at: nat, x: T)
    requires at <= |s|
    ensures multiset(InsertAt(s, at, x)) == multiset(s) + multiset{x}
  {
    assert s == s[..at] + s[at..];
  }

  lemma FirstContents<T>(s: seq<T>)
    requires s != []
    ensures multiset(s) == multiset{s[0]} + multiset(s[1..])
  {
    assert s == [s[0]] + s[1..];
  }

  lemma AsMessagesSplit(a: seq<string>, b: seq<string>)
    ensures AsMessages(a + b) == AsMessages(a) + AsMessages(b)
  {
  }

  lemma AsMessagesFirst(texts: seq<string>)
    requires texts != []
    ensures multiset(AsMessages(texts)) == multiset{Message(texts[0], [])} + multiset(AsMessages(texts[1..]))
  {
    assert AsMessages(texts) == [Message(texts[0], [])] + AsMessages(texts[1..]);
  }

  lemma {:induction false} SteeredTextsSplit(a: seq<WorkerEvent>, b: seq<WorkerEvent>)
    ensures SteeredTexts(a + b) == SteeredTexts(a) + SteeredTexts(b)
  {
    if a == [] {
      assert a + b == b;
    } else {
      assert (a + b)[1..] == a[1..] + b;
      SteeredTextsSplit(a[1..], b);
    }
  }

  lemma SteeredTextsSend(channel: seq<WorkerEvent>, e: WorkerEvent)
    ensures SteeredTexts(channel + [e]) == SteeredTexts(channel) + if e.Steered? then [e.text] else []
  {
    SteeredTextsSplit(channel, [e]);
    assert [e][1..] == [];
  }

  // ---------------------------------------------------------------- every step keeps the invariant

  lemma SpawnKeepsInv(s: State, spawn: Spawn)
    requires Inv(s) && s.mode == Idle
    ensures Inv(SpawnTurn(s, spawn))
  {
    NothingAnnounced(s.worker.inbox);
    NothingAnnounced([]);
  }

  lemma NothingAnnounced(inbox: seq<string>)
    ensures SteeredTexts([]) + [] + inbox == inbox
  {
  }

  lemma HookedKeepsInv(s: State, message: Message, hookAllows: bool, spawn: Spawn)
    requires Inv(s) && s.mode == Idle
    ensures Inv(StartHookedTurn(s, message, hookAllows, spawn))
  {
    SpawnKeepsInv(s.(flags := s.flags.(overflowRetried := false), ledger := Record(s.ledger, message)), spawn);
  }

  lemma RestartKeepsInv(s: State, hookAllows: bool, spawn: Spawn)
    requires Inv(s)
    ensures Inv(Stop(s)) && Inv(RestartWithFirst(s, hookAllows, spawn))
  {
    var t := Stop(s);
    if t.queued != [] {
      HookedKeepsInv(t.(queued := t.queued[1..]), t.queued[0], hookAllows, spawn);
    }
  }

  lemma SteerFirstKeepsInv(s: State, hookAllows: bool)
    requires Inv(s) && s.mode != Idle && s.queued != []
    ensures Inv(SteerFirst(s, hookAllows))
  {
    if hookAllows {
      OrderGrows(s.mode, s.steered, s.worker, s.flags, s.queued[0].text);
    }
  }

  lemma OrderGrows(mode: Mode, steered: seq<string>, w: Worker, f: Flags, text: string)
    requires SteersInOrder(mode, steered, w, f) && mode != Idle
    ensures SteersInOrder(mode, steered + [text], w.(inbox := w.inbox + [text]), f)
  {
    if mode == Turn {
      Associates(SteeredTexts(w.channel) + w.batch, w.inbox, [text]);
    } else {
      SuffixGrows(w.inbox, steered, text);
    }
  }

  lemma SuffixGrows(part: seq<string>, whole: seq<string>, text: string)
    ensures IsSuffix(part, whole) ==> IsSuffix(part + [text], whole + [text])
  {
  }

  lemma ToFrontKeepsInv(s: State, at: nat)
    requires Inv(s) && at < |s.queued|
    ensures Inv(ToFront(s, at)) && ToFront(s, at).mode == s.mode
  {
  }

  lemma SteerOrRestartKeepsInv(s: State, hookAllows: bool, spawn: Spawn)
    requires Inv(s) && s.mode != Idle && s.queued != []
    ensures Inv(SteerOrRestart(s, hookAllows, spawn)) && Inv(RestartWithFirst(s, hookAllows, spawn))
  {
    SteerFirstKeepsInv(s, hookAllows);
    RestartKeepsInv(s, hookAllows, spawn);
  }

  lemma ChosenKeepsInv(s: State, index: Option<int>, at: nat, hookAllows: bool, spawn: Spawn)
    requires Inv(s) && s.mode != Idle && at < |s.queued| && QueueIndex(index, |s.queued|) == Some(at)
    ensures Inv(SteerMessage(s, index, hookAllows, spawn)) && Inv(InterruptAndSend(s, index, hookAllows, spawn))
  {
    ToFrontKeepsInv(s, at);
    var t := ToFront(s, at);
    SteerOrRestartKeepsInv(t, hookAllows, spawn);
    assert SteerMessage(s, index, hookAllows, spawn) == SteerOrRestart(t, hookAllows, spawn);
    assert InterruptAndSend(s, index, hookAllows, spawn) == RestartWithFirst(t, hookAllows, spawn);
  }

  lemma SteerKeepsInv(s: State, index: Option<int>, hookAllows: bool, spawn: Spawn)
    requires Inv(s)
    ensures Inv(SteerMessage(s, index, hookAllows, spawn)) && Inv(InterruptAndSend(s, index, hookAllows, spawn))
  {
    match QueueIndex(index, |s.queued|)
    case None =>
    case Some(at) =>
      if s.mode != Idle {
        ChosenKeepsInv(s, index, at, hookAllows, spawn);
      }
  }

  /** In a turn the message a `Steered` event names is the first unread steer. */
  lemma SteeredHitsFirst(s: State)
    requires Inv(s) && s.mode != Idle && s.worker.channel != [] && s.worker.channel[0].Steered?
    ensures s.mode == Turn && s.steered != [] && s.steered[0] == s.worker.channel[0].text
    ensures WithoutFirst(s.steered, s.worker.channel[0].text) == s.steered[1..]
    ensures s.steered[1..] == SteeredTexts(s.worker.channel[1..]) + s.worker.batch + s.worker.inbox
  {
    assert SteeredTexts(s.worker.channel)[0] == s.worker.channel[0].text;
  }

  /** Once the last event is up, every unread steer is in the inbox. */
  lemma LastIsAlone(s: State)
    requires Inv(s) && s.mode != Idle && s.worker.channel != [] && Terminal(s.worker.channel[0])
    ensures s.worker.channel[1..] == [] && s.worker.batch == []
    ensures s.mode == Turn ==> s.steered == s.worker.inbox
    ensures s.mode == Compacting ==> s.worker.channel[0].Done?
  {
    assert SteeredTexts(s.worker.channel) == [];
  }

  lemma EndKeepsInv(s: State, e: WorkerEvent, canCompact: bool)
    requires s.worker.channel == [] && s.worker.batch == [] && (s.flags.keepSubagents ==> !s.worker.lingering)
    requires e.Done? || (s.steered == s.worker.inbox && !s.worker.lingering)
    ensures Inv(ReceiveLast(s, e, canCompact))
  {
  }

  lemma LastKeepsInv(s: State, canCompact: bool)
    requires Inv(s) && s.mode != Idle && s.worker.channel != [] && Terminal(s.worker.channel[0])
    ensures Inv(ReceiveEvent(s, canCompact))
  {
    LastIsAlone(s);
    LastIsReceived(s, canCompact);
    EndKeepsInv(s.(worker := s.worker.(channel := [])), s.worker.channel[0], canCompact);
  }

  lemma LastIsReceived(s: State, canCompact: bool)
    requires s.mode != Idle && s.worker.channel != [] && Terminal(s.worker.channel[0])
    ensures ReceiveEvent(s, canCompact) ==
            ReceiveLast(s.(worker := s.worker.(channel := s.worker.channel[1..])), s.worker.channel[0], canCompact)
  {
  }

  lemma RestEndsOnce(s: State)
    requires Inv(s) && s.mode != Idle && s.worker.channel != [] && !Terminal(s.worker.channel[0])
    ensures EndsOnce(s.mode, s.worker.(channel := s.worker.channel[1..]))
  {
    var rest := s.worker.channel[1..];
    assert forall i :: 0 <= i < |rest| ==> rest[i] == s.worker.channel[i + 1];
  }

  lemma MiddleKeepsInv(s: State, canCompact: bool)
    requires Inv(s) && s.mode != Idle && s.worker.channel != [] && !Terminal(s.worker.channel[0])
    ensures Inv(ReceiveEvent(s, canCompact))
  {
    var e, rest := s.worker.channel[0], s.worker.channel[1..];
    RestEndsOnce(s);
    if e.Steered? {
      SteeredHitsFirst(s);
    } else {
      assert SteeredTexts(s.worker.channel) == [] + SteeredTexts(rest) == SteeredTexts(rest);
    }
  }

  lemma ReceiveKeepsInv(s: State, canCompact: bool)
    requires Inv(s)
    ensures Inv(ReceiveEvent(s, canCompact))
  {
    if s.mode != Idle && s.worker.channel != [] {
      if Terminal(s.worker.channel[0]) {
        LastKeepsInv(s, canCompact);
      } else {
        MiddleKeepsInv(s, canCompact);
      }
    }
  }

  lemma SendKeepsInv(s: State, event: WorkerEvent)
    requires Inv(s)
    ensures Inv(SendEvent(s, event))
  {
    SteeredTextsSend(s.worker.channel, event);
    assert SteeredTexts(s.worker.channel) + [] == SteeredTexts(s.worker.channel);
  }

  lemma AnnounceKeepsInv(s: State)
    requires Inv(s)
    ensures Inv(AnnounceNext(s))
  {
    if s.mode == Turn && s.worker.batch != [] {
      var batch := s.worker.batch;
      SteeredTextsSend(s.worker.channel, Steered(batch[0]));
      assert SteeredTexts(s.worker.channel) + batch == SteeredTexts(s.worker.channel) + [batch[0]] + batch[1..];
    }
  }

  lemma DrainKeepsInv(s: State)
    requires Inv(s)
    ensures Inv(Drain(s)) && Inv(LingeringDrains(s)) && Inv(Compact(s))
  {
    var texts := SteeredTexts(s.worker.channel);
    assert texts + [] + s.worker.inbox == texts + s.worker.inbox + [];
    assert s.steered[|s.steered|..] == [] && s.steered[0..] == s.steered;
  }

  lemma PollKeepsInv(s: State, goalActive: bool, hookAllows: bool, spawn: Spawn)
    requires Inv(s)
    ensures Inv(PollWhenIdle(s, goalActive, hookAllows, spawn))
  {
    if s.mode == Idle {
      SpawnKeepsInv(s, spawn);
      SpawnKeepsInv(s.(flags := s.flags.(retryPending := false)), spawn);
      if s.queued != [] {
        HookedKeepsInv(s.(queued := s.queued[1..]), s.queued[0], hookAllows, spawn);
      }
    }
  }

  lemma SubmitKeepsInv(s: State, message: Message, hookAllows: bool, spawn: Spawn)
    requires Inv(s)
    ensures Inv(SubmitMessage(s, message, hookAllows, spawn))
  {
    if s.mode == Idle {
      var ledger := s.ledger.(submitted := s.ledger.submitted + multiset{message});
      HookedKeepsInv(s.(ledger := ledger), message, hookAllows, spawn);
    }
  }

  lemma StepKeepsInv(s: State, l: Label)
    requires Inv(s)
    ensures Inv(Apply(s, l))
  {
    match l
    case Submit(message, hookAllows, spawn) => SubmitKeepsInv(s, message, hookAllows, spawn);
    case Steer(index, hookAllows, spawn) => SteerKeepsInv(s, index, hookAllows, spawn);
    case InterruptSend(index, hookAllows, spawn) => SteerKeepsInv(s, index, hookAllows, spawn);
    case Interrupt => RestartKeepsInv(s, false, NoClient);
    case ContinueTurn(_, spawn) =>
      if s.mode == Idle {
        SpawnKeepsInv(s.(flags := s.flags.(overflowRetried := false)), spawn);
      }
    case Receive(canCompact) => ReceiveKeepsInv(s, canCompact);
    case PollIdle(goalActive, hookAllows, spawn) => PollKeepsInv(s, goalActive, hookAllows, spawn);
    case Send(event) => SendKeepsInv(s, event);
    case Announce => AnnounceKeepsInv(s);
    case Unqueue(_) =>
    case QueueMove(_, _) =>
    case SwitchSession =>
    case _ => DrainKeepsInv(s);
  }

  // ---------------------------------------------------------------- every step keeps the balance

  lemma RequeueBalances(s: State)
    requires Balanced(s)
    ensures Balanced(Requeue(s))
  {
    assert AsMessages([]) == [];
  }

  lemma SpawnBalances(s: State, spawn: Spawn)
    requires Balanced(s)
    ensures Balanced(SpawnTurn(s, spawn))
  {
    RequeueBalances(s);
  }

  /** A message that is out of the queue and not yet anywhere else. */
  lemma HookedBalances(s: State, message: Message, hookAllows: bool, spawn: Spawn)
    requires Balanced(s.(ledger := Record(s.ledger, message)))
    ensures Balanced(StartHookedTurn(s, message, hookAllows, spawn))
  {
    if hookAllows {
      SpawnBalances(s.(flags := s.flags.(overflowRetried := false), ledger := Record(s.ledger, message)), spawn);
    }
  }

  lemma FirstStartBalances(s: State, hookAllows: bool, spawn: Spawn)
    requires Balanced(s) && s.queued != []
    ensures Balanced(StartFirst(s, hookAllows, spawn))
  {
    FirstContents(s.queued);
    HookedBalances(s.(queued := s.queued[1..]), s.queued[0], hookAllows, spawn);
  }

  lemma RestartBalances(s: State, hookAllows: bool, spawn: Spawn)
    requires Balanced(s)
    ensures Balanced(Stop(s)) && Balanced(RestartWithFirst(s, hookAllows, spawn))
  {
    RequeueBalances(s);
    if Stop(s).queued != [] {
      FirstStartBalances(Stop(s), hookAllows, spawn);
    }
  }

  lemma SteerFirstBalances(s: State, hookAllows: bool)
    requires Balanced(s) && s.queued != [] && s.queued[0].images == []
    ensures Balanced(SteerFirst(s, hookAllows))
  {
    FirstContents(s.queued);
    AsMessagesSplit(s.steered, [s.queued[0].text]);
    assert AsMessages([s.queued[0].text]) == [s.queued[0]];
  }

  lemma ToFrontBalances(s: State, at: nat)
    requires Balanced(s) && at < |s.queued|
    ensures Balanced(ToFront(s, at))
  {
    RemoveAtContents(s.queued, at);
  }

  lemma SteerOrRestartBalances(s: State, hookAllows: bool, spawn: Spawn)
    requires Balanced(s) && s.queued != []
    ensures Balanced(SteerOrRestart(s, hookAllows, spawn)) && Balanced(RestartWithFirst(s, hookAllows, spawn))
  {
    RestartBalances(s, hookAllows, spawn);
    if s.queued[0].images == [] {
      SteerFirstBalances(s, hookAllows);
    }
  }

  lemma ChosenBalances(s: State, index: Option<int>, at: nat, hookAllows: bool, spawn: Spawn)
    requires Balanced(s) && s.mode != Idle && at < |s.queued| && QueueIndex(index, |s.queued|) == Some(at)
    ensures Balanced(SteerMessage(s, index, hookAllows, spawn))
    ensures Balanced(InterruptAndSend(s, index, hookAllows, spawn))
  {
    ToFrontBalances(s, at);
    var t := ToFront(s, at);
    SteerOrRestartBalances(t, hookAllows, spawn);
    assert SteerMessage(s, index, hookAllows, spawn) == SteerOrRestart(t, hookAllows, spawn);
    assert InterruptAndSend(s, index, hookAllows, spawn) == RestartWithFirst(t, hookAllows, spawn);
  }

  lemma SteerBalances(s: State, index: Option<int>, hookAllows: bool, spawn: Spawn)
    requires Balanced(s)
    ensures Balanced(SteerMessage(s, index, hookAllows, spawn))
    ensures Balanced(InterruptAndSend(s, index, hookAllows, spawn))
  {
    match QueueIndex(index, |s.queued|)
    case None =>
    case Some(at) =>
      if s.mode != Idle {
        ChosenBalances(s, index, at, hookAllows, spawn);
      }
  }

  lemma SteeredBalances(s: State, canCompact: bool)
    requires Balanced(s) && Inv(s) && s.mode != Idle && s.worker.channel != [] && s.worker.channel[0].Steered?
    ensures Balanced(ReceiveEvent(s, canCompact))
  {
    SteeredHitsFirst(s);
    AsMessagesFirst(s.steered);
  }

  lemma LastBalances(s: State, e: WorkerEvent, canCompact: bool)
    requires Balanced(s)
    ensures Balanced(ReceiveLast(s, e, canCompact))
  {
    RequeueBalances(s);
  }

  lemma ReceiveBalances(s: State, canCompact: bool)
    requires Balanced(s) && Inv(s)
    ensures Balanced(ReceiveEvent(s, canCompact))
  {
    if s.mode != Idle && s.worker.channel != [] {
      if s.worker.channel[0].Steered? {
        SteeredBalances(s, canCompact);
      } else {
        LastBalances(s.(worker := s.worker.(channel := s.worker.channel[1..])), s.worker.channel[0], canCompact);
      }
    }
  }

  lemma MoveContents<T>(s: seq<T>, source: nat, place: nat)
    requires source < |s| && place < |s|
    ensures multiset(InsertAt(RemoveAt(s, source), place, s[source])) == multiset(s)
  {
    RemoveAtContents(s, source);
    InsertAtContents(RemoveAt(s, source), place, s[source]);
  }

  lemma TakeBackBalances(s: State, index: Option<int>)
    requires Balanced(s)
    ensures Balanced(TakeBack(s, index))
  {
    var at := QueueIndex(index, |s.queued|);
    if at.Some? {
      RemoveAtContents(s.queued, at.value);
    }
  }

  lemma MoveBalances(s: State, from: Option<int>, to: Option<int>)
    requires Balanced(s)
    ensures Balanced(MoveQueued(s, from, to))
  {
    var target := QueueMoveTarget(from, to, |s.queued|);
    if target.Some? {
      MoveContents(s.queued, target.value.0, target.value.1);
    }
  }

  lemma PollBalances(s: State, goalActive: bool, hookAllows: bool, spawn: Spawn)
    requires Balanced(s)
    ensures Balanced(PollWhenIdle(s, goalActive, hookAllows, spawn))
  {
    if s.flags.retryPending {
      SpawnBalances(s.(flags := s.flags.(retryPending := false)), spawn);
    } else if s.queued != [] {
      FirstStartBalances(s, hookAllows, spawn);
    } else {
      SpawnBalances(s, spawn);
    }
  }

  lemma SubmitBalances(s: State, message: Message, hookAllows: bool, spawn: Spawn)
    requires Balanced(s)
    ensures Balanced(SubmitMessage(s, message, hookAllows, spawn))
  {
    if s.mode == Idle {
      var ledger := s.ledger.(submitted := s.ledger.submitted + multiset{message});
      HookedBalances(s.(ledger := ledger), message, hookAllows, spawn);
    }
  }

  lemma StepBalances(s: State, l: Label)
    requires Balanced(s) && Inv(s)
    ensures Balanced(Apply(s, l))
  {
    match l
    case Submit(message, hookAllows, spawn) => SubmitBalances(s, message, hookAllows, spawn);
    case Steer(index, hookAllows, spawn) => SteerBalances(s, index, hookAllows, spawn);
    case InterruptSend(index, hookAllows, spawn) => SteerBalances(s, index, hookAllows, spawn);
    case Unqueue(index) => TakeBackBalances(s, index);
    case QueueMove(from, to) => MoveBalances(s, from, to);
    case Interrupt => RestartBalances(s, false, NoClient);
    case ContinueTurn(_, spawn) => SpawnBalances(s.(flags := s.flags.(overflowRetried := false)), spawn);
    case Receive(canCompact) => ReceiveBalances(s, canCompact);
    case PollIdle(goalActive, hookAllows, spawn) => PollBalances(s, goalActive, hookAllows, spawn);
    case _ =>
  }

  lemma {:induction false} RunKeepsInv(labels: seq<Label>)
    ensures Inv(Run(INITIAL, labels)) && Balanced(Run(INITIAL, labels))
  {
    if labels == [] {
      assert AsMessages([]) == [];
    } else {
      var before := Run(INITIAL, labels[..|labels| - 1]);
      RunKeepsInv(labels[..|labels| - 1]);
      StepKeepsInv(before, labels[|labels| - 1]);
      StepBalances(before, labels[|labels| - 1]);
    }
  }

  // ---------------------------------------------------------------- nothing lost, nothing twice

  /** After any run every submitted message, as often as it was submitted, is queued, steered and
      unread, recorded, taken back, blocked by the hook or cleared with its session: in one place. */
  lemma {:induction false} NothingLost(labels: seq<Label>)
    ensures var s := Run(INITIAL, labels);
            s.ledger.submitted ==
            multiset(s.queued) + s.ledger.takenBack + s.ledger.blocked + s.ledger.cleared +
            multiset(AsMessages(s.steered)) + multiset(s.ledger.recorded)
  {
    RunKeepsInv(labels);
  }

  /** In every reachable state of a turn the unread steers are, in order, the announced ones, the
      drained ones and the inbox; so the search for an announced steer always ends at the first. */
  lemma {:induction false} SteersStayInOrder(labels: seq<Label>)
    ensures var s := Run(INITIAL, labels);
            s.mode == Turn ==>
              && s.steered == SteeredTexts(s.worker.channel) + s.worker.batch + s.worker.inbox
              && (s.worker.channel != [] && s.worker.channel[0].Steered? ==>
                    s.steered != [] && s.steered[0] == s.worker.channel[0].text)
  {
    var s := Run(INITIAL, labels);
    RunKeepsInv(labels);
    if s.mode == Turn && s.worker.channel != [] && s.worker.channel[0].Steered? {
      SteeredHitsFirst(s);
    }
  }

  /** No message is recorded more often than it was submitted. */
  lemma {:induction false} NothingRecordedTwice(labels: seq<Label>)
    ensures var l := Run(INITIAL, labels).ledger; multiset(l.recorded) <= l.submitted
  {
    NothingLost(labels);
  }

  /** Interrupting a turn puts its unread steers ahead of the queue, in the order they were sent. */
  lemma {:induction false} UnreadSteersComeFirst(labels: seq<Label>)
    ensures var s := Run(INITIAL, labels);
            s.mode == Turn ==>
              Apply(s, Interrupt).queued ==
              AsMessages(SteeredTexts(s.worker.channel) + s.worker.batch + s.worker.inbox) + s.queued
  {
    SteersStayInOrder(labels);
  }

  /** "Interrupt and send" records the chosen message next exactly when no steer is unread, or the
      first unread one is that very message: unread steers are requeued ahead of it. */
  lemma ChosenIsNextExactly(s: State, at: nat, spawn: Spawn)
    requires s.mode != Idle && at < |s.queued|
    ensures InterruptAndSend(s, Some(at), true, spawn).ledger.recorded == s.ledger.recorded + [s.queued[at]] <==>
            s.steered == [] || Message(s.steered[0], []) == s.queued[at]
  {
    RecordsNext(s, at, spawn);
    var next := if s.steered == [] then s.queued[at] else Message(s.steered[0], []);
    assert (s.ledger.recorded + [next])[|s.ledger.recorded|] == next;
    assert (s.ledger.recorded + [s.queued[at]])[|s.ledger.recorded|] == s.queued[at];
  }

  lemma RecordsNext(s: State, at: nat, spawn: Spawn)
    requires s.mode != Idle && at < |s.queued|
    ensures InterruptAndSend(s, Some(at), true, spawn).ledger.recorded ==
            s.ledger.recorded + [if s.steered == [] then s.queued[at] else Message(s.steered[0], [])]
  {
    assert Stop(ToFront(s, at)).queued[0] == if s.steered == [] then s.queued[at] else Message(s.steered[0], []);
  }

  lemma RunOneMore(labels: seq<Label>, l: Label)
    ensures Run(INITIAL, labels + [l]) == Apply(Run(INITIAL, labels), l)
  {
    assert (labels + [l])[..|labels|] == labels;
  }

  lemma QueuesBehindTurn(s: State, message: Message, spawn: Spawn)
    requires s.mode == Turn
    ensures var t := Apply(s, Submit(message, true, spawn));
            t.mode == Turn && t.queued == s.queued + [message] && t.steered == s.steered && t.ledger.recorded == s.ledger.recorded
  {
  }

  lemma SteersTheFirst(s: State, first: Message, rest: seq<Message>, spawn: Spawn)
    requires s.mode == Turn && s.queued == [first] + rest && first.images == []
    ensures var t := Apply(s, Steer(None, true, spawn));
            t.mode == Turn && t.queued == rest && t.steered == s.steered + [first.text] && t.ledger.recorded == s.ledger.recorded
  {
    var t := ToFront(s, 0);
    assert t.queued == [first] + rest && t.queued[1..] == rest;
  }

  lemma FirstTurn(message: Message, spawn: Spawn)
    requires spawn.Spawned?
    ensures var t := Apply(INITIAL, Submit(message, true, spawn));
            t.mode == Turn && t.queued == [] && t.steered == [] && t.ledger.recorded == [message]
  {
    assert AsMessages([]) == [];
  }

  /** In a run: "a" and "b" are queued behind a turn and "a" is steered; "interrupt and send" then
      chooses "b" and runs "a". */
  lemma ChosenIsNotAlwaysNext(spawn: Spawn) returns (labels: seq<Label>)
    requires spawn.Spawned?
    ensures var s := Run(INITIAL, labels);
            && s.mode == Turn && s.queued == [Message("b", [])]
            && InterruptAndSend(s, Some(0), true, spawn).ledger.recorded == s.ledger.recorded + [Message("a", [])]
  {
    var first, a, b := Message("first", []), Message("a", []), Message("b", []);
    RunOneMore([], Submit(first, true, spawn));
    FirstTurn(first, spawn);
    labels := [] + [Submit(first, true, spawn)];
    RunOneMore(labels, Submit(a, true, spawn));
    QueuesBehindTurn(Run(INITIAL, labels), a, spawn);
    labels := labels + [Submit(a, true, spawn)];
    RunOneMore(labels, Submit(b, true, spawn));
    QueuesBehindTurn(Run(INITIAL, labels), b, spawn);
    labels := labels + [Submit(b, true, spawn)];
    RunOneMore(labels, Steer(None, true, spawn));
    SteersTheFirst(Run(INITIAL, labels), a, [b], spawn);
    labels := labels + [Steer(None, true, spawn)];
    RecordsNext(Run(INITIAL, labels), 0, spawn);
  }

  /** A negative index counts from the last message; an index outside the queue names none. */
  lemma QueueIndexExact(index: int, len: nat)
    ensures QueueIndex(Some(index), len).Some? <==> -index <= len && index < len
    ensures var at := QueueIndex(Some(index), len);
            at.Some? ==> at.value as int == if index < 0 then index + len else index
    ensures QueueIndex(None, len) == QueueIndex(Some(0), len)
  {
  }

  /** Moving a queued message puts it at its place and keeps the order of the others. */
  lemma MoveKeepsOthersInOrder(s: State, from: Option<int>, to: Option<int>)
    ensures var target := QueueMoveTarget(from, to, |s.queued|);
            var moved := MoveQueued(s, from, to).queued;
            if target.None? then moved == s.queued
            else
              && |moved| == |s.queued| && moved[target.value.1] == s.queued[target.value.0]
              && RemoveAt(moved, target.value.1) == RemoveAt(s.queued, target.value.0)
  {
  }

  // ---------------------------------------------------------------- compaction makes progress

  function StateAt(labels: seq<Label>, i: nat): State
    requires i <= |labels|
  {
    Run(INITIAL, labels[..i])
  }

  lemma StateAtNext(labels: seq<Label>, i: nat)
    requires i < |labels|
    ensures StateAt(labels, i + 1) == Apply(StateAt(labels, i), labels[i])
    ensures Inv(StateAt(labels, i))
  {
    assert labels[..i + 1][..i] == labels[..i];
    RunKeepsInv(labels[..i]);
  }

  /** The core drops the turn to compact and retry. */
  predicate IsRestart(s: State, l: Label) {
    l.Receive? && s.mode != Idle && s.worker.channel != [] && CompactsAndRetries(s.flags, s.worker.channel[0], l.canCompact)
  }

  /** The step puts another turn in the place of the running one, if the hook allows. */
  predicate Replaces(s: State, l: Label) {
    match l
    case Steer(index, _, _) =>
      s.mode != Idle &&
      (match QueueIndex(index, |s.queued|) case None => false case Some(at) => s.queued[at].images != [])
    case InterruptSend(index, _, _) => s.mode != Idle && QueueIndex(index, |s.queued|).Some?
    case _ => false
  }

  /** The step starts or continues a turn for the user or the goal. */
  predicate StartsTurn(s: State, l: Label) {
    match l
    case Submit(_, hookAllows, _) => s.mode == Idle && hookAllows
    case Steer(index, hookAllows, _) => hookAllows && Replaces(s, l)
    case InterruptSend(index, hookAllows, _) => hookAllows && Replaces(s, l)
    case ContinueTurn(hasTurns, _) => s.mode == Idle && hasTurns
    case PollIdle(goalActive, hookAllows, _) =>
      s.mode == Idle && !s.flags.retryPending && if s.queued != [] then hookAllows else goalActive
    case _ => false
  }

  predicate IsProgress(s: State, l: Label) {
    || (l.Receive? && s.mode != Idle && s.worker.channel != [] && s.worker.channel[0].ResponseItem?)
    || StartsTurn(s, l)
  }

  /** Nothing can restart a turn until there is progress. */
  predicate Spent(s: State) {
    && s.flags.overflowRetried
    && (s.flags.retryPending ==> s.flags.forceCompaction)
    && (s.mode == Turn ==> !s.worker.headroom && !s.flags.retryPending)
  }

  lemma SpawnStaysSpent(s: State, spawn: Spawn)
    requires Spent(s) && s.mode == Idle && s.flags.forceCompaction && !s.flags.retryPending
    ensures Spent(SpawnTurn(s, spawn))
  {
  }

  lemma RestartStaysSpent(s: State, spawn: Spawn)
    requires Spent(s)
    ensures Spent(Stop(s)) && Spent(RestartWithFirst(s, false, spawn))
  {
  }

  lemma ReceiveStaysSpent(s: State, l: Label)
    requires Inv(s) && Spent(s) && l.Receive? && !IsProgress(s, l)
    ensures Spent(Apply(s, l)) && !IsRestart(s, l)
  {
    if s.mode != Idle && s.worker.channel != [] && Terminal(s.worker.channel[0]) {
      assert !s.worker.channel[0].MidTurnCompaction?;
    }
  }

  lemma SteerStaysSpent(s: State, l: Label)
    requires Spent(s) && (l.Steer? || l.InterruptSend?) && !IsProgress(s, l)
    ensures Spent(Apply(s, l))
  {
    match QueueIndex(l.index, |s.queued|)
    case None =>
    case Some(at) =>
      if s.mode != Idle {
        RestartStaysSpent(ToFront(s, at), l.spawn);
      }
  }

  lemma PollStaysSpent(s: State, l: Label)
    requires Spent(s) && l.PollIdle? && !IsProgress(s, l)
    ensures Spent(Apply(s, l))
  {
    if s.mode == Idle && s.flags.retryPending {
      SpawnStaysSpent(s.(flags := s.flags.(retryPending := false)), l.spawn);
    }
  }

  lemma StaysSpent(s: State, l: Label)
    requires Inv(s) && Spent(s) && !IsProgress(s, l)
    ensures Spent(Apply(s, l)) && !IsRestart(s, l)
  {
    match l
    case Receive(_) => ReceiveStaysSpent(s, l);
    case Steer(_, _, _) => SteerStaysSpent(s, l);
    case InterruptSend(_, _, _) => SteerStaysSpent(s, l);
    case PollIdle(_, _, _) => PollStaysSpent(s, l);
    case Interrupt => RestartStaysSpent(s, NoClient);
    case _ =>
  }

  lemma {:induction false} SpentUntilProgress(labels: seq<Label>, i: nat, j: nat)
    requires i <= j < |labels| && Spent(StateAt(labels, i))
    requires forall k :: i <= k < j ==> !IsProgress(StateAt(labels, k), labels[k])
    ensures Spent(StateAt(labels, j))
    decreases j - i
  {
    if i < j {
      StateAtNext(labels, i);
      StaysSpent(StateAt(labels, i), labels[i]);
      SpentUntilProgress(labels, i + 1, j);
    }
  }

  lemma RestartLeavesSpent(labels: seq<Label>, i: nat)
    requires i < |labels| && IsRestart(StateAt(labels, i), labels[i])
    ensures Spent(StateAt(labels, i + 1))
  {
    StateAtNext(labels, i);
  }

  lemma RestartIsNoProgress(s: State, l: Label)
    requires IsRestart(s, l)
    ensures !IsProgress(s, l)
  {
  }

  /** Between two compact-and-retry restarts of any kind the model answered something or a turn was
      started or continued: compaction never loops without progress. */
  lemma CompactionMakesProgress(labels: seq<Label>, i: nat, j: nat)
    requires i < j < |labels|
    requires IsRestart(StateAt(labels, i), labels[i]) && IsRestart(StateAt(labels, j), labels[j])
    ensures exists k :: i < k < j && IsProgress(StateAt(labels, k), labels[k])
  {
    RestartLeavesSpent(labels, i);
    if forall k :: i < k < j ==> !IsProgress(StateAt(labels, k), labels[k]) {
      SpentUntilProgress(labels, i + 1, j);
      StateAtNext(labels, j);
      RestartIsNoProgress(StateAt(labels, j), labels[j]);
      StaysSpent(StateAt(labels, j), labels[j]);
    }
  }

  // ---------------------------------------------------------------- overflows

  /** The core drops the turn because the request was too long upstream. */
  predicate IsOverflowRestart(s: State, l: Label) {
    IsRestart(s, l) && s.worker.channel[0].ContextOverflow?
  }

  /** The model answered, or the user started or continued a turn. */
  predicate IsUserProgress(s: State, l: Label) {
    match l
    case Receive(_) => s.mode != Idle && s.worker.channel != [] && s.worker.channel[0].ResponseItem?
    case PollIdle(_, hookAllows, _) => s.mode == Idle && !s.flags.retryPending && s.queued != [] && hookAllows
    case _ => StartsTurn(s, l)
  }

  /** Only an answer or the user's turn clears the way for another overflow restart. */
  lemma RetriedStays(s: State, l: Label)
    requires s.flags.overflowRetried && !IsUserProgress(s, l)
    ensures Apply(s, l).flags.overflowRetried
  {
    if l.Steer? || l.InterruptSend? {
      ReplacingKeepsRetried(s, l);
    }
  }

  lemma ReplacingKeepsRetried(s: State, l: Label)
    requires s.flags.overflowRetried && (l.Steer? || l.InterruptSend?) && !IsUserProgress(s, l)
    ensures Apply(s, l).flags.overflowRetried
  {
    match QueueIndex(l.index, |s.queued|)
    case None =>
    case Some(at) => assert ToFront(s, at).queued[0] == s.queued[at];
  }

  lemma {:induction false} RetriedUntilProgress(labels: seq<Label>, i: nat, j: nat)
    requires i <= j < |labels| && StateAt(labels, i).flags.overflowRetried
    requires forall k :: i <= k < j ==> !IsUserProgress(StateAt(labels, k), labels[k])
    ensures StateAt(labels, j).flags.overflowRetried
    decreases j - i
  {
    if i < j {
      StateAtNext(labels, i);
      RetriedStays(StateAt(labels, i), labels[i]);
      RetriedUntilProgress(labels, i + 1, j);
    }
  }

  /** Between a restart and an overflow restart after it, the model answered something or the user started
      or continued a turn; a goal that goes on by itself is not enough. */
  lemma OverflowsMakeProgress(labels: seq<Label>, i: nat, j: nat)
    requires i < j < |labels|
    requires IsRestart(StateAt(labels, i), labels[i]) && IsOverflowRestart(StateAt(labels, j), labels[j])
    ensures exists k :: i < k < j && IsUserProgress(StateAt(labels, k), labels[k])
  {
    RestartLeavesSpent(labels, i);
    if forall k :: i < k < j ==> !IsUserProgress(StateAt(labels, k), labels[k]) {
      RetriedUntilProgress(labels, i + 1, j);
    }
  }

  /** A turn spawned while compaction is forced never hands itself back for compaction. */
  lemma {:induction false} ForcedTurnNeverStopsMidway(labels: seq<Label>, i: nat, j: nat)
    requires i < j <= |labels|
    requires StateAt(labels, i).mode == Idle && StateAt(labels, i).flags.forceCompaction
    requires forall k :: i < k <= j ==> StateAt(labels, k).mode == Turn
    requires forall k :: i < k < j ==> !Replaces(StateAt(labels, k), labels[k])
    ensures MidTurnCompaction !in StateAt(labels, j).worker.channel
    ensures !StateAt(labels, j).worker.headroom
  {
    var last := j - 1;
    if i < last {
      ForcedTurnNeverStopsMidway(labels, i, last);
    }
    ForcedAtNext(labels, last);
    NoHeadroomNoHandBack(labels, j);
  }

  lemma ForcedAtNext(labels: seq<Label>, i: nat)
    requires i < |labels| && StateAt(labels, i + 1).mode == Turn
    requires match StateAt(labels, i).mode
             case Idle => StateAt(labels, i).flags.forceCompaction
             case Turn => !StateAt(labels, i).worker.headroom && !Replaces(StateAt(labels, i), labels[i])
             case Compacting => false
    ensures !StateAt(labels, i + 1).worker.headroom
  {
    StateAtNext(labels, i);
    if StateAt(labels, i).mode == Idle {
      ForcedSpawnHasNoHeadroom(StateAt(labels, i), labels[i]);
    } else {
      TurnKeepsHeadroom(StateAt(labels, i), labels[i]);
    }
  }

  lemma NoHeadroomNoHandBack(labels: seq<Label>, j: nat)
    requires j <= |labels| && StateAt(labels, j).mode == Turn && !StateAt(labels, j).worker.headroom
    ensures MidTurnCompaction !in StateAt(labels, j).worker.channel
  {
    RunKeepsInv(labels[..j]);
  }

  lemma ForcedSpawnHasNoHeadroom(s: State, l: Label)
    requires s.mode == Idle && s.flags.forceCompaction && Apply(s, l).mode == Turn
    ensures !Apply(s, l).worker.headroom
  {
  }

  /** Within a turn the headroom changes only if another turn takes its place. */
  lemma TurnKeepsHeadroom(s: State, l: Label)
    requires s.mode == Turn && Apply(s, l).mode == Turn && !s.worker.headroom && !Replaces(s, l)
    ensures !Apply(s, l).worker.headroom
  {
    if l.Steer? || l.InterruptSend? {
      match QueueIndex(l.index, |s.queued|)
      case None =>
      case Some(at) => assert ToFront(s, at).queued[0] == s.queued[at];
    }
  }
}
