/** The core's object: its fields change in place, and each public method is one or more steps of the
    state machine in SteeringState. `history` remembers the steps, so that what is proved of every run
    holds of every object. */
module AgentCore {
  import opened Common
  import opened SteeringState
  import opened SteeringTheorems

  /** Events received until the channel is empty or the turn is over. */
  function ReceiveAll(s: State, canCompact: bool): State
    decreases |s.worker.channel|
  {
    if s.mode == Idle || s.worker.channel == [] then s else ReceiveAll(ReceiveEvent(s, canCompact), canCompact)
  }

  class Core {
    var mode: Mode
    var queued: seq<Message>
    var steeredPending: seq<string>
    var keepSubagents: bool
    var forceCompaction: bool
    var overflowRetryPending: bool
    var overflowRetried: bool
    // The manager's inbox, the event channel and the thread behind it.
    var worker: Worker
    // The session, and where the other messages went.
    var ledger: Ledger
    ghost var history: seq<Label>

    ghost function View(): State
      reads this
    {
      State(mode, queued, steeredPending, worker,
            Flags(keepSubagents, forceCompaction, overflowRetryPending, overflowRetried), ledger)
    }

    /** The object is where its history leads. */
    ghost predicate Valid()
      reads this
    {
      View() == Run(INITIAL, history)
    }

    constructor ()
      ensures Valid() && history == []
    {
      mode, queued, steeredPending := Idle, [], [];
      keepSubagents, forceCompaction, overflowRetryPending, overflowRetried := false, false, false, false;
      worker, ledger := INITIAL.worker, INITIAL.ledger;
      history := [];
    }

    /** Every object, whatever was called on it, has lost no message and recorded none twice. */
    lemma NothingIsLost()
      requires Valid()
      ensures ledger.submitted ==
              multiset(queued) + multiset(AsMessages(steeredPending)) + multiset(ledger.recorded) +
              ledger.takenBack + ledger.blocked + ledger.cleared
      ensures mode == Turn ==> steeredPending == SteeredTexts(worker.channel) + worker.batch + worker.inbox
    {
      NothingLost(history);
      SteersStayInOrder(history);
    }

    /** What was just done was this step. */
    ghost method Remember(l: Label, was: State)
      requires was == Run(INITIAL, history) && View() == Apply(was, l)
      modifies this`history
      ensures Valid()
    {
      RunOneMore(history, l);
      history := history + [l];
    }

    // -------------------------------------------------------------- inside a call

    method RequeueUnreadSteers()
      modifies this`worker, this`steeredPending, this`queued
      ensures View() == Requeue(old(View()))
    {
      worker := worker.(inbox := []);
      ghost var unread, behind := steeredPending, queued;
      assert AsMessages([]) == [];
      while steeredPending != []
        invariant |steeredPending| <= |unread| && steeredPending == unread[..|steeredPending|]
        invariant queued == AsMessages(unread[|steeredPending|..]) + behind
        invariant worker == old(worker).(inbox := [])
      {
        var last := |steeredPending| - 1;
        assert AsMessages(unread[last..]) == [Message(unread[last], [])] + AsMessages(unread[last + 1..]);
        queued := [Message(steeredPending[last], [])] + queued;
        steeredPending := steeredPending[..last];
      }
    }

    method SpawnCurrentContextTurn(spawn: Spawn)
      modifies this
      ensures View() == SpawnTurn(old(View()), spawn) && history == old(history)
    {
      var keep := keepSubagents;
      keepSubagents := false;
      if spawn.NoCredentials? {
        RequeueUnreadSteers();
        return;
      }
      if !keep {
        RequeueUnreadSteers();
        worker := worker.(lingering := false);
      }
      if spawn.NoClient? {
        return;
      }
      var compacts := (forceCompaction || spawn.auto) && spawn.plan;
      forceCompaction := false;
      worker := Worker(worker.inbox, [], [], false, !compacts && spawn.below && spawn.plan, worker.lingering);
      mode := Turn;
    }

    method StartHookedTurn(message: Message, hookAllows: bool, spawn: Spawn)
      modifies this
      ensures View() == SteeringState.StartHookedTurn(old(View()), message, hookAllows, spawn) && history == old(history)
    {
      if !hookAllows {
        ledger := Block(ledger, message);
        return;
      }
      overflowRetried := false;
      ledger := Record(ledger, message);
      SpawnCurrentContextTurn(spawn);
    }

    method StopCurrentTurn()
      modifies this
      ensures View() == Stop(old(View())) && history == old(history)
    {
      RequeueUnreadSteers();
      worker := Worker([], [], [], false, worker.headroom, worker.lingering || mode == Turn);
      mode := Idle;
    }

    method RestartWithFirst(hookAllows: bool, spawn: Spawn)
      modifies this
      ensures View() == SteeringState.RestartWithFirst(old(View()), hookAllows, spawn) && history == old(history)
    {
      StopCurrentTurn();
      if queued == [] {
        return;
      }
      var next := queued[0];
      queued := queued[1..];
      StartHookedTurn(next, hookAllows, spawn);
    }

    method MoveQueuedToFront(at: nat)
      requires at < |queued|
      modifies this`queued
      ensures View() == ToFront(old(View()), at)
    {
      var chosen := queued[at];
      queued := queued[..at] + queued[at + 1..];
      queued := [chosen] + queued;
    }

    // -------------------------------------------------------------- the user's calls

    method SubmitUserMessage(message: Message, hookAllows: bool, spawn: Spawn)
      requires Valid()
      modifies this
      ensures Valid() && View() == SubmitMessage(old(View()), message, hookAllows, spawn)
    {
      ghost var was := View();
      ledger := ledger.(submitted := ledger.submitted + multiset{message});
      if mode != Idle {
        queued := queued + [message];
      } else {
        StartHookedTurn(message, hookAllows, spawn);
      }
      Remember(Label.Submit(message, hookAllows, spawn), was);
    }

    method Steer(index: Option<int>, hookAllows: bool, spawn: Spawn)
      requires Valid()
      modifies this
      ensures Valid() && View() == SteerMessage(old(View()), index, hookAllows, spawn)
    {
      ghost var was := View();
      var at := QueueIndex(index, |queued|);
      if at.Some? && mode != Idle {
        MoveQueuedToFront(at.value);
        assert View() == ToFront(was, at.value);
        if queued[0].images == [] {
          SteerFirst(hookAllows);
        } else {
          RestartWithFirst(hookAllows, spawn);
        }
      }
      Remember(Label.Steer(index, hookAllows, spawn), was);
    }

    method SteerFirst(hookAllows: bool)
      requires queued != []
      modifies this
      ensures View() == SteeringState.SteerFirst(old(View()), hookAllows) && history == old(history)
    {
      var next := queued[0];
      queued := queued[1..];
      if !hookAllows {
        ledger := Block(ledger, next);
        return;
      }
      worker := worker.(inbox := worker.inbox + [next.text]);
      steeredPending := steeredPending + [next.text];
    }

    method InterruptSend(index: Option<int>, hookAllows: bool, spawn: Spawn)
      requires Valid()
      modifies this
      ensures Valid() && View() == InterruptAndSend(old(View()), index, hookAllows, spawn)
    {
      ghost var was := View();
      var at := QueueIndex(index, |queued|);
      if at.Some? && mode != Idle {
        MoveQueuedToFront(at.value);
        RestartWithFirst(hookAllows, spawn);
      }
      Remember(Label.InterruptSend(index, hookAllows, spawn), was);
    }

    /** Takes a queued message back; nothing else changes. */
    method Unqueue(index: Option<int>) returns (taken: Option<Message>)
      requires Valid()
      modifies this
      ensures Valid() && View() == TakeBack(old(View()), index)
      ensures match QueueIndex(index, |old(queued)|)
              case None => taken == None
              case Some(at) => taken == Some(old(queued)[at]) && ledger.takenBack == old(ledger).takenBack + multiset{old(queued)[at]}
    {
      ghost var was := View();
      var at := QueueIndex(index, |queued|);
      if at.None? {
        taken := None;
      } else {
        taken := Some(queued[at.value]);
        ledger := ledger.(takenBack := ledger.takenBack + multiset{queued[at.value]});
        queued := queued[..at.value] + queued[at.value + 1..];
      }
      Remember(Label.Unqueue(index), was);
    }

    method QueueMove(from: Option<int>, to: Option<int>)
      requires Valid()
      modifies this
      ensures Valid() && View() == MoveQueued(old(View()), from, to)
    {
      ghost var was := View();
      var target := QueueMoveTarget(from, to, |queued|);
      if target.Some? {
        var (source, place) := target.value;
        var item := queued[source];
        queued := queued[..source] + queued[source + 1..];
        queued := queued[..place] + [item] + queued[place..];
      }
      Remember(Label.QueueMove(from, to), was);
    }

    method Interrupt()
      requires Valid()
      modifies this
      ensures Valid() && View() == if old(mode) == Idle then old(View()) else Stop(old(View()))
    {
      ghost var was := View();
      if mode != Idle {
        StopCurrentTurn();
      }
      Remember(Label.Interrupt, was);
    }

    // -------------------------------------------------------------- the poll

    /** The `Steered` arm: the search takes the first equal message, and it is the first of all. */
    method RecordSteered(text: string)
      modifies this`steeredPending, this`ledger
      ensures steeredPending == WithoutFirst(old(steeredPending), text)
      ensures ledger == Record(old(ledger), Message(text, []))
    {
      var at := 0;
      while at < |steeredPending| && steeredPending[at] != text
        invariant at <= |steeredPending|
        invariant WithoutFirst(steeredPending, text) == steeredPending[..at] + WithoutFirst(steeredPending[at..], text)
      {
        assert steeredPending[at..][1..] == steeredPending[at + 1..];
        at := at + 1;
      }
      if at < |steeredPending| {
        assert steeredPending[at..][1..] == steeredPending[at + 1..];
        steeredPending := steeredPending[..at] + steeredPending[at + 1..];
      } else {
        assert steeredPending[at..] == [];
      }
      ledger := Record(ledger, Message(text, []));
    }

    method EndTurn(event: WorkerEvent, canCompact: bool)
      modifies this
      ensures View() == ReceiveLast(old(View()), event, canCompact) && history == old(history)
    {
      if event.MidTurnCompaction? || (event.ContextOverflow? && !overflowRetried && canCompact) {
        if event.MidTurnCompaction? {
          keepSubagents := true;
        }
        overflowRetried, overflowRetryPending, forceCompaction := true, true, true;
      } else {
        RequeueUnreadSteers();
      }
      mode := Idle;
    }

    method Handle(event: WorkerEvent, canCompact: bool)
      requires mode != Idle
      modifies this
      ensures View() == HandleEvent(old(View()), event, canCompact) && history == old(history)
    {
      match event {
        case Steered(text) => RecordSteered(text);
        case ResponseItem => overflowRetried := false;
        case Other =>
        case _ => EndTurn(event, canCompact);
      }
    }

    method ReceiveNext(canCompact: bool)
      requires Valid() && mode != Idle && worker.channel != []
      modifies this
      ensures Valid() && View() == ReceiveEvent(old(View()), canCompact)
    {
      ghost var was := View();
      var event := worker.channel[0];
      worker := worker.(channel := worker.channel[1..]);
      Handle(event, canCompact);
      Remember(Receive(canCompact), was);
    }

    /** One poll: everything the worker sent is handled, and then the next turn may start. */
    method PollEvents(canCompact: bool, goalActive: bool, hookAllows: bool, spawn: Spawn)
      requires Valid()
      modifies this
      ensures Valid()
      ensures View() == PollWhenIdle(ReceiveAll(old(View()), canCompact), goalActive, hookAllows, spawn)
    {
      while mode != Idle && worker.channel != []
        invariant Valid() && ReceiveAll(View(), canCompact) == ReceiveAll(old(View()), canCompact)
        decreases |worker.channel|
      {
        ReceiveNext(canCompact);
      }
      StartNext(goalActive, hookAllows, spawn);
    }

    method StartNext(goalActive: bool, hookAllows: bool, spawn: Spawn)
      requires Valid()
      modifies this
      ensures Valid() && View() == PollWhenIdle(old(View()), goalActive, hookAllows, spawn)
    {
      ghost var was := View();
      if mode == Idle {
        if overflowRetryPending {
          overflowRetryPending := false;
          SpawnCurrentContextTurn(spawn);
        } else if queued != [] {
          var next := queued[0];
          queued := queued[1..];
          StartHookedTurn(next, hookAllows, spawn);
        } else if goalActive {
          SpawnCurrentContextTurn(spawn);
        }
      }
      Remember(PollIdle(goalActive, hookAllows, spawn), was);
    }
  }
}
