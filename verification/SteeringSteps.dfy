/** What a reader of the queue relies on: which events a turn is retried after, what the next poll starts,
    in which order messages run, and how a steered message gets into the session. */
module SteeringSteps {
  import opened Common
  import opened SteeringState
  import opened SteeringTheorems

  // ---------------------------------------------------------------- the end of a turn

  /** A turn whose last event is received is retried exactly after a mid-turn hand-back, and after an
      overflow that is the first since the model answered, if there is something to compact. Then the
      queue and the steers stay as they are; otherwise the unread steers go back ahead of the queue. */
  lemma EndedTurnIsRetriedExactly(s: State, canCompact: bool)
    requires s.mode != Idle && s.worker.channel != [] && Terminal(s.worker.channel[0])
    ensures var t, e := ReceiveEvent(s, canCompact), s.worker.channel[0];
            var retried := e == MidTurnCompaction || (e == ContextOverflow && canCompact && !s.flags.overflowRetried);
            && t.mode == Idle && t.ledger == s.ledger
            && (t.flags.retryPending <==> s.flags.retryPending || retried)
            && (t.flags.forceCompaction <==> s.flags.forceCompaction || retried)
            && (t.flags.overflowRetried <==> s.flags.overflowRetried || retried)
            && (t.flags.keepSubagents <==> s.flags.keepSubagents || e == MidTurnCompaction)
            && if retried then t.queued == s.queued && t.steered == s.steered && t.worker.inbox == s.worker.inbox
               else
                 && t.steered == [] && t.worker.inbox == [] && |t.queued| == |s.steered| + |s.queued|
                 && (forall i :: 0 <= i < |s.steered| ==> t.queued[i] == Message(s.steered[i], []))
                 && t.queued[|s.steered|..] == s.queued
  {
  }

  /** Other events leave the turn running and the queue alone; an answer opens the way for another retry. */
  lemma OtherEventsExactly(s: State, canCompact: bool)
    requires s.mode != Idle && s.worker.channel != [] && !Terminal(s.worker.channel[0]) && !s.worker.channel[0].Steered?
    ensures var t := ReceiveEvent(s, canCompact);
            && t == s.(worker := t.worker, flags := t.flags) && t.worker == s.worker.(channel := s.worker.channel[1..])
            && t.flags == s.flags.(overflowRetried := s.flags.overflowRetried && s.worker.channel[0] != ResponseItem)
  {
  }

  /** The next idle poll that meets a worker starts the retried turn ahead of everything queued, compacting
      if it can, and without headroom. */
  lemma RetryComesFirst(s: State, canCompact: bool, goalActive: bool, hookAllows: bool, spawn: Spawn)
    requires s.mode != Idle && s.worker.channel != [] && spawn.Spawned?
    requires s.worker.channel[0] == MidTurnCompaction ||
             (s.worker.channel[0] == ContextOverflow && canCompact && !s.flags.overflowRetried)
    ensures var t := PollWhenIdle(ReceiveEvent(s, canCompact), goalActive, hookAllows, spawn);
            && t.mode == Turn && !t.worker.headroom && !t.flags.retryPending && !t.flags.forceCompaction
            && t.ledger == s.ledger
            && (if s.worker.channel[0] == MidTurnCompaction || s.flags.keepSubagents
                then t.queued == s.queued && t.steered == s.steered && t.worker.inbox == s.worker.inbox
                else t.queued == AsMessages(s.steered) + s.queued && t.steered == [])
  {
  }

  // ---------------------------------------------------------------- what starts a turn

  /** A turn may hand itself back exactly if it was spawned under the budget, uncompacted and with something
      to compact, and nothing forced it to compact. */
  lemma HeadroomExactly(s: State, plan: bool, auto: bool, below: bool)
    ensures var t := SpawnTurn(s, Spawned(plan, auto, below));
            t.mode == Turn && (t.worker.headroom <==> plan && below && !auto && !s.flags.forceCompaction)
  {
  }

  /** With nothing to retry an idle poll starts the first queued message if the hook allows it, or drops it
      from the queue if not; with nothing queued the goal goes on; otherwise nothing happens. */
  lemma IdlePollExactly(s: State, goalActive: bool, hookAllows: bool, spawn: Spawn)
    requires s.mode == Idle && !s.flags.retryPending && s.steered == []
    ensures var t := PollWhenIdle(s, goalActive, hookAllows, spawn);
            if s.queued != [] then
              && t.queued == s.queued[1..]
              && (if hookAllows then t.ledger == s.ledger.(recorded := s.ledger.recorded + [s.queued[0]])
                  else t.ledger == s.ledger.(blocked := s.ledger.blocked + multiset{s.queued[0]}))
              && (t.mode == Turn <==> hookAllows && spawn.Spawned?)
            else
              && t.queued == [] && t.ledger == s.ledger && (t.mode == Turn <==> goalActive && spawn.Spawned?)
              && (!goalActive ==> t == s)
  {
    assert AsMessages([]) == [] && [] + s.queued == s.queued;
    if s.queued != [] {
      assert [] + s.queued[1..] == s.queued[1..];
    }
  }

  /** What the hook forbids is not recorded, not steered and starts nothing. */
  lemma ForbiddenMessageStartsNothing(s: State, l: Label)
    requires (l.Submit? || l.Steer? || l.InterruptSend? || l.PollIdle?) && !l.hookAllows
    requires l.PollIdle? ==> s.queued != [] && !s.flags.retryPending
    ensures Apply(s, l).ledger.recorded == s.ledger.recorded
    ensures Apply(s, l).mode in {s.mode, Idle} && |Apply(s, l).steered| <= |s.steered|
  {
    if l.Steer? || l.InterruptSend? {
      match QueueIndex(l.index, |s.queued|)
      case None =>
      case Some(at) => assert ToFront(s, at).ledger == s.ledger && ToFront(s, at).steered == s.steered;
    }
  }

  /** A message sent while a turn runs waits behind the others; one sent while nothing runs starts. */
  lemma SubmitExactly(s: State, message: Message, hookAllows: bool, spawn: Spawn)
    ensures var t := SubmitMessage(s, message, hookAllows, spawn);
            if s.mode != Idle then t.queued == s.queued + [message] && t.mode == s.mode && t.steered == s.steered
            else hookAllows ==> t.ledger.recorded == s.ledger.recorded + [message] && (t.mode == Turn <==> spawn.Spawned?)
  {
  }

  /** A steered message of text alone goes into the running turn; one with images starts a turn. */
  lemma SteerExactly(s: State, index: Option<int>, at: nat, spawn: Spawn)
    requires s.mode == Turn && at < |s.queued| && QueueIndex(index, |s.queued|) == Some(at)
    ensures var t := SteerMessage(s, index, true, spawn);
            if s.queued[at].images == [] then
              && t.mode == Turn && t.steered == s.steered + [s.queued[at].text]
              && t.worker == s.worker.(inbox := s.worker.inbox + [s.queued[at].text])
              && t.queued == RemoveAt(s.queued, at) && t.ledger == s.ledger
            else (t.mode == Turn <==> spawn.Spawned?) && |t.ledger.recorded| == |s.ledger.recorded| + 1
  {
    var t := ToFront(s, at);
    assert t.queued[0] == s.queued[at] && t.queued[1..] == RemoveAt(s.queued, at);
  }

  /** Continuing starts a turn on the conversation as it is, exactly when nothing runs and there is one. */
  lemma ContinueExactly(s: State, hasTurns: bool, spawn: Spawn)
    requires spawn.Spawned?
    ensures var t := Continue(s, hasTurns, spawn);
            && t.ledger == s.ledger
            && if s.mode == Idle && hasTurns then t.mode == Turn && !t.flags.overflowRetried else t == s
  {
  }

  /** Switching sessions and compacting happen only while nothing runs. */
  lemma IdleCommandsExactly(s: State)
    ensures if s.mode == Idle
            then ClearQueue(s).queued == [] && ClearQueue(s).steered == s.steered && Compact(s).mode == Compacting
            else ClearQueue(s) == s && Compact(s) == s
    ensures Compact(s).queued == s.queued && Compact(s).steered == s.steered && Compact(s).worker.inbox == s.worker.inbox
  {
  }

  /** A message is moved exactly when both places exist and differ, and a place to go is given. */
  lemma MoveTargetExactly(from: Option<int>, to: Option<int>, len: nat)
    ensures var source, place := QueueIndex(from, len), QueueIndex(to, len);
            QueueMoveTarget(from, to, len) ==
            if source.Some? && place.Some? && to.Some? && source != place then Some((source.value, place.value)) else None
  {
  }

  // ---------------------------------------------------------------- first come, first served

  /** What is sent, in the order it is sent. */
  function SentMessages(labels: seq<Label>): seq<Message> {
    if labels == [] then []
    else
      var last := labels[|labels| - 1];
      SentMessages(labels[..|labels| - 1]) + if last.Submit? then [last.message] else []
  }

  /** The user only sends, interrupts, compacts and continues, and the hook allows everything. */
  predicate IsPlain(l: Label) {
    match l
    case Submit(_, hookAllows, _) => hookAllows
    case PollIdle(_, hookAllows, _) => hookAllows
    case Steer(_, _, _) => false
    case InterruptSend(_, _, _) => false
    case Unqueue(_) => false
    case QueueMove(_, _) => false
    case SwitchSession => false
    case _ => true
  }

  predicate NothingSteered(s: State) {
    && s.steered == [] && s.worker.inbox == [] && s.worker.batch == []
    && forall i :: 0 <= i < |s.worker.channel| ==> !s.worker.channel[i].Steered?
  }

  /** A message sent while nothing runs starts at once, ahead of whatever is queued. */
  predicate Overtakes(s: State, l: Label) {
    l.Submit? && s.mode == Idle && exists i :: 0 <= i < |s.queued| && s.queued[i] != l.message
  }

  /** The messages recorded and queued, in the order they run. */
  function InLine(s: State): seq<Message> {
    s.ledger.recorded + s.queued
  }

  lemma {:induction false} TurnsAround(m: Message, q: seq<Message>)
    ensures [m] + q == q + [m] <==> forall i :: 0 <= i < |q| ==> q[i] == m
  {
    if q != [] {
      var init := q[..|q| - 1];
      TurnsAround(m, init);
      if [m] + q == q + [m] {
        assert ([m] + q)[|q|] == q[|q| - 1] && (q + [m])[|q|] == m;
        assert q == init + [m];
        assert [m] + init == ([m] + q)[..|q|] && q == (q + [m])[..|q|];
      }
      if forall i :: 0 <= i < |q| ==> q[i] == m {
        assert q == init + [m];
        assert [m] + q == ([m] + init) + [m];
      }
    }
  }

  /** Sending a message puts it at the end of the line exactly if it does not overtake another. */
  lemma SentLastExactly(s: State, message: Message, spawn: Spawn)
    requires s.steered == []
    ensures InLine(Apply(s, Submit(message, true, spawn))) == InLine(s) + [message] <==>
            !Overtakes(s, Submit(message, true, spawn))
  {
    var r, q := s.ledger.recorded, s.queued;
    SubmitLine(s, message, spawn);
    TurnsAround(message, q);
    if s.mode == Idle {
      assert ([message] + q) == (r + ([message] + q))[|r|..] && q + [message] == (r + (q + [message]))[|r|..];
    }
  }

  lemma SubmitLine(s: State, message: Message, spawn: Spawn)
    requires s.steered == []
    ensures InLine(s) + [message] == s.ledger.recorded + (s.queued + [message])
    ensures InLine(Apply(s, Submit(message, true, spawn))) ==
            s.ledger.recorded + if s.mode == Idle then [message] + s.queued else s.queued + [message]
  {
    Associates(s.ledger.recorded, s.queued, [message]);
    if s.mode == Idle {
      assert AsMessages([]) == [] && [] + s.queued == s.queued;
      Associates(s.ledger.recorded, [message], s.queued);
    }
  }

  lemma TwoInLine(a: Message, b: Message, spawn: Spawn) returns (labels: seq<Label>)
    requires spawn.Spawned?
    ensures var s := Run(INITIAL, labels);
            s.mode == Turn && s.queued == [b] && s.steered == [] && s.ledger.recorded == [a]
  {
    RunOneMore([], Submit(a, true, spawn));
    FirstTurn(a, spawn);
    labels := [] + [Submit(a, true, spawn)];
    RunOneMore(labels, Submit(b, true, spawn));
    QueuesBehindTurn(Run(INITIAL, labels), b, spawn);
    labels := labels + [Submit(b, true, spawn)];
  }

  /** In a run: "b" waits behind "a", the user interrupts, and "c" runs before "b". */
  lemma NewMessageOvertakes(spawn: Spawn) returns (labels: seq<Label>)
    requires spawn.Spawned?
    ensures var a, b, c := Message("a", []), Message("b", []), Message("c", []);
            InLine(Run(INITIAL, labels)) == [a, b] && InLine(Run(INITIAL, labels + [Submit(c, true, spawn)])) == [a, c, b]
  {
    var a, b, c := Message("a", []), Message("b", []), Message("c", []);
    labels := TwoInLine(a, b, spawn);
    RunOneMore(labels, Interrupt);
    InterruptKeepsLine(Run(INITIAL, labels));
    labels := labels + [Interrupt];
    RunOneMore(labels, Submit(c, true, spawn));
    SubmitLine(Run(INITIAL, labels), c, spawn);
    assert [a] + [b] == [a, b] && [a] + ([c] + [b]) == [a, c, b];
  }

  lemma InterruptKeepsLine(s: State)
    requires s.mode != Idle && s.steered == []
    ensures var t := Apply(s, Interrupt); t.mode == Idle && t.queued == s.queued && t.steered == [] && t.ledger == s.ledger
  {
    assert AsMessages([]) == [] && [] + s.queued == s.queued;
  }

  lemma PollKeepsLine(s: State, goalActive: bool, spawn: Spawn)
    requires s.steered == []
    ensures InLine(PollWhenIdle(s, goalActive, true, spawn)) == InLine(s)
  {
    assert AsMessages([]) == [] && [] + s.queued == s.queued;
    if s.queued != [] {
      assert [] + s.queued[1..] == s.queued[1..];
      assert s.ledger.recorded + [s.queued[0]] + s.queued[1..] == s.ledger.recorded + s.queued;
    }
  }

  lemma WorkerSteersNothing(s: State, l: Label)
    requires NothingSteered(s) && (l.Send? || l.Announce? || l.DrainInbox? || l.LingeringDrain? || l.Receive?)
    ensures NothingSteered(Apply(s, l))
  {
  }

  lemma SpawnSteersNothing(s: State, spawn: Spawn)
    requires NothingSteered(s)
    ensures NothingSteered(SpawnTurn(s, spawn))
  {
  }

  lemma PlainStepSteersNothing(s: State, l: Label)
    requires NothingSteered(s) && IsPlain(l)
    ensures NothingSteered(Apply(s, l))
  {
    match l
    case Submit(message, _, spawn) =>
      SpawnSteersNothing(s.(flags := s.flags.(overflowRetried := false),
                            ledger := Record(s.ledger.(submitted := s.ledger.submitted + multiset{message}), message)), spawn);
    case PollIdle(_, _, spawn) => PollSteersNothing(s, l);
    case ContinueTurn(_, spawn) => SpawnSteersNothing(s.(flags := s.flags.(overflowRetried := false)), spawn);
    case Interrupt =>
    case CompactCommand =>
    case _ => WorkerSteersNothing(s, l);
  }

  lemma PollSteersNothing(s: State, l: Label)
    requires NothingSteered(s) && l.PollIdle? && l.hookAllows
    ensures NothingSteered(Apply(s, l))
  {
    if s.flags.retryPending {
      SpawnSteersNothing(s.(flags := s.flags.(retryPending := false)), l.spawn);
    } else if s.queued != [] {
      SpawnSteersNothing(s.(queued := s.queued[1..], flags := s.flags.(overflowRetried := false),
                            ledger := Record(s.ledger, s.queued[0])), l.spawn);
    } else {
      SpawnSteersNothing(s, l.spawn);
    }
  }

  lemma WorkerKeepsLine(s: State, l: Label)
    requires NothingSteered(s) && (l.Send? || l.Announce? || l.DrainInbox? || l.LingeringDrain?)
    ensures InLine(Apply(s, l)) == InLine(s)
  {
  }

  lemma ReceiveKeepsLine(s: State, canCompact: bool)
    requires NothingSteered(s)
    ensures InLine(ReceiveEvent(s, canCompact)) == InLine(s)
  {
    assert AsMessages([]) == [] && [] + s.queued == s.queued;
  }

  lemma OtherStepsKeepLine(s: State, l: Label)
    requires NothingSteered(s) && IsPlain(l) && !l.Submit? && !l.PollIdle?
    ensures InLine(Apply(s, l)) == InLine(s)
  {
    match l
    case Receive(canCompact) => ReceiveKeepsLine(s, canCompact);
    case Interrupt =>
      if s.mode != Idle {
        InterruptKeepsLine(s);
      }
    case ContinueTurn(_, _) => assert AsMessages([]) == [] && [] + s.queued == s.queued;
    case CompactCommand =>
    case _ => WorkerKeepsLine(s, l);
  }

  /** While the user only sends messages, interrupts, compacts and continues, they run in the order they
      were sent, if none is sent while nothing runs and another one waits. */
  lemma {:induction false} FirstComeFirstServed(labels: seq<Label>)
    requires forall i :: 0 <= i < |labels| ==> IsPlain(labels[i]) && !Overtakes(Run(INITIAL, labels[..i]), labels[i])
    ensures InLine(Run(INITIAL, labels)) == SentMessages(labels) && NothingSteered(Run(INITIAL, labels))
  {
    if labels != [] {
      var init, l := labels[..|labels| - 1], labels[|labels| - 1];
      forall i | 0 <= i < |init| ensures IsPlain(init[i]) && !Overtakes(Run(INITIAL, init[..i]), init[i]) {
        assert init[..i] == labels[..i];
      }
      FirstComeFirstServed(init);
      PlainStepSteersNothing(Run(INITIAL, init), l);
      LineGrows(Run(INITIAL, init), l);
    }
  }

  lemma LineGrows(s: State, l: Label)
    requires NothingSteered(s) && IsPlain(l) && !Overtakes(s, l)
    ensures InLine(Apply(s, l)) == InLine(s) + if l.Submit? then [l.message] else []
  {
    match l
    case Submit(message, _, spawn) => SentLastExactly(s, message, spawn);
    case PollIdle(goalActive, _, spawn) => PollKeepsLine(s, goalActive, spawn);
    case _ => OtherStepsKeepLine(s, l);
  }

  // ---------------------------------------------------------------- a steered message is read

  /** The texts announced on the channel, and nothing else. */
  function Announced(texts: seq<string>): (events: seq<WorkerEvent>)
    ensures |events| == |texts|
  {
    seq(|texts|, i requires 0 <= i < |texts| => Steered(texts[i]))
  }

  /** The worker announces all it drained. */
  function AnnounceAll(s: State, n: nat): State
    decreases n
  {
    if n == 0 then s else AnnounceAll(AnnounceNext(s), n - 1)
  }

  lemma {:induction false} AnnouncesInOrder(s: State)
    requires s.mode == Turn
    ensures AnnounceAll(s, |s.worker.batch|) ==
            s.(worker := s.worker.(batch := [], channel := s.worker.channel + Announced(s.worker.batch)))
    decreases |s.worker.batch|
  {
    var w := s.worker;
    if w.batch == [] {
      assert w.channel + Announced([]) == w.channel;
    } else {
      AnnouncesInOrder(AnnounceNext(s));
      assert w.channel + [Steered(w.batch[0])] + Announced(w.batch[1..]) == w.channel + Announced(w.batch);
    }
  }

  function ReceiveSome(s: State, n: nat): State
    decreases n
  {
    if n == 0 then s else ReceiveSome(ReceiveEvent(s, false), n - 1)
  }

  lemma {:induction false} ReceivesInOrder(s: State, texts: seq<string>)
    requires s.mode == Turn && s.steered == texts && s.worker.channel == Announced(texts)
    ensures ReceiveSome(s, |texts|) ==
            s.(steered := [], worker := s.worker.(channel := []),
               ledger := s.ledger.(recorded := s.ledger.recorded + AsMessages(texts)))
    decreases |texts|
  {
    if texts == [] {
      assert s.ledger.recorded + AsMessages([]) == s.ledger.recorded;
    } else {
      var t := ReceiveEvent(s, false);
      assert s.worker.channel[1..] == Announced(texts[1..]);
      ReceivesInOrder(t, texts[1..]);
      assert s.ledger.recorded + [Message(texts[0], [])] + AsMessages(texts[1..]) == s.ledger.recorded + AsMessages(texts);
    }
  }

  lemma DrainedIsAnnounced(s: State) returns (t: State)
    requires Inv(s) && s.mode == Turn && !s.worker.ended && s.worker.batch == [] && s.worker.channel == []
    ensures t == AnnounceAll(Drain(s), |s.worker.inbox|) && t.steered == s.worker.inbox && t.worker.inbox == []
    ensures t.worker.channel == Announced(s.worker.inbox) && t.mode == Turn && t.queued == s.queued && t.ledger == s.ledger
  {
    NothingAnnounced(s.worker.inbox);
    AnnouncesInOrder(Drain(s));
    assert [] + Announced(s.worker.inbox) == Announced(s.worker.inbox);
    t := AnnounceAll(Drain(s), |s.worker.inbox|);
  }

  /** Whatever is steered into a running turn is recorded, in order, once the worker comes to read it. */
  lemma SteeredIsRecorded(s: State)
    requires Inv(s) && s.mode == Turn && !s.worker.ended && s.worker.batch == [] && s.worker.channel == []
    ensures var n := |s.worker.inbox|;
            var t := ReceiveSome(AnnounceAll(Drain(s), n), n);
            && t.ledger == s.ledger.(recorded := s.ledger.recorded + AsMessages(s.worker.inbox))
            && t.steered == [] && t.worker.inbox == [] && t.mode == Turn && t.queued == s.queued
  {
    var announced := DrainedIsAnnounced(s);
    ReceivesInOrder(announced, s.worker.inbox);
  }
}
