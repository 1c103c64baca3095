/** What every run of the protocol keeps: each request is answered exactly once, at most one prompt is
    open, and a permission is used at most once. */
module AcpTheorems {
  import opened Common
  import opened AcpProtocol

  // ---------------------------------------------------------------- requests and replies

  function RepliedIds(out: seq<Outgoing>): multiset<JsonId> {
    if out == [] then multiset{}
    else RepliedIds(out[..|out| - 1]) + (if out[|out| - 1].Reply? then multiset{out[|out| - 1].id} else multiset{})
  }

  /** The prompt that was accepted and is not answered yet. */
  function Pending(s: Acp): multiset<JsonId> {
    if s.prompts.current.Some? then multiset{s.prompts.current.value} else multiset{}
  }

  function Accounted(s: Acp): multiset<JsonId> {
    RepliedIds(s.out) + Pending(s)
  }

  /** The ids that ask for a reply. A cancel is a notification, and an id it carries is not looked at. */
  function AskedBy(l: Label): multiset<JsonId> {
    if l.Message? && !l.m.kind.SessionCancel? && !l.m.kind.Response? && l.m.id.Some? then multiset{l.m.id.value}
    else multiset{}
  }

  function Asked(labels: seq<Label>): multiset<JsonId> {
    if labels == [] then multiset{} else Asked(labels[..|labels| - 1]) + AskedBy(labels[|labels| - 1])
  }

  lemma RepliesGrow(s: Acp, o: Outgoing)
    ensures RepliedIds(Write(s, o).out) == RepliedIds(s.out) + if o.Reply? then multiset{o.id} else multiset{}
  {
    assert (s.out + [o])[..|s.out|] == s.out;
  }

  lemma PermissionKeepsAccount(s: Acp, callId: string)
    ensures Accounted(AskPermission(s, callId)) == Accounted(s)
  {
    if s.session.Some? {
      var n := s.permissions.counter + 1;
      RepliesGrow(s.(permissions := Permissions(n, s.permissions.open[PermissionId(n) := callId])),
                  PermissionRequest(PermissionId(n), callId));
    }
  }

  lemma EventKeepsAccount(s: Acp, e: Event)
    ensures Accounted(HandleEvent(s, e)) == Accounted(s)
  {
    match e
    case ApprovalRequest(callId) => PermissionKeepsAccount(s, callId);
    case Failure(_) => SettleKeepsAccount(s, Refused(INTERNAL_ERROR));
    case Ready => SettleKeepsAccount(s, Done(if s.prompts.cancelled then "cancelled" else "end_turn"));
    case Progress => RepliesGrow(s, Update);
  }

  lemma SettleKeepsAccount(s: Acp, answer: Answer)
    ensures Accounted(Settle(s, answer)) == Accounted(s)
  {
    if s.prompts.current.Some? {
      RepliesGrow(s.(prompts := s.prompts.(current := None)), Reply(s.prompts.current.value, answer));
    }
  }

  lemma {:induction false} EventsKeepAccount(s: Acp, events: seq<Event>)
    ensures Accounted(HandleEvents(s, events)) == Accounted(s)
    decreases |events|
  {
    if events != [] {
      EventKeepsAccount(s, events[0]);
      EventsKeepAccount(HandleEvent(s, events[0]), events[1..]);
    }
  }

  lemma ReplyAccounts(s: Acp, id: JsonId, answer: Answer)
    ensures Accounted(Write(s, Reply(id, answer))) == Accounted(s) + multiset{id}
  {
    RepliesGrow(s, Reply(id, answer));
  }

  lemma PromptAccounts(s: Acp, sessionId: string, usable: bool, id: Option<JsonId>, events: seq<Event>)
    ensures Accounted(Prompt(s, sessionId, usable, id, events)) ==
            Accounted(s) + if id.Some? then multiset{id.value} else multiset{}
  {
    if id.Some? {
      if Accepts(s, sessionId, usable, id) {
        EventsKeepAccount(s.(prompts := Prompts(id, false)), events);
      } else {
        ReplyAccounts(s, id.value, Refused(INVALID_PARAMS));
      }
    }
  }

  lemma RespondAccounts(s: Acp, id: Option<JsonId>, allow: bool, always: bool, events: seq<Event>)
    ensures Accounted(Respond(s, id, allow, always, events)) == Accounted(s)
  {
    if id.Some? && id.value.Text? && id.value.s in s.permissions.open {
      var open := s.permissions.open;
      EventsKeepAccount(Approve(s.(permissions := s.permissions.(open := open - {id.value.s})), open[id.value.s], allow, always),
                        events);
    }
  }

  function IdOf(id: Option<JsonId>): multiset<JsonId> {
    if id.Some? then multiset{id.value} else multiset{}
  }

  lemma NewSessionAccounts(s: Acp, id: Option<JsonId>)
    ensures Accounted(NewSession(s, id)) == Accounted(s) + IdOf(id)
  {
    if id.Some? {
      var n := s.sessionCounter + 1;
      ReplyAccounts(s.(session := Some("sess-" + Decimal(n)), sessionCounter := n), id.value, Plain);
    }
  }

  lemma ReplyIfAskedAccounts(s: Acp, id: Option<JsonId>, answer: Answer)
    ensures Accounted(ReplyIfAsked(s, id, answer)) == Accounted(s) + IdOf(id)
  {
    if id.Some? {
      ReplyAccounts(s, id.value, answer);
    }
  }

  lemma CancelAccounts(s: Acp)
    ensures Accounted(Cancel(s)) == Accounted(s)
  {
    SettleKeepsAccount(s.(prompts := s.prompts.(cancelled := true)), Done("cancelled"));
  }

  predicate RepliesAtOnce(m: Method) {
    m.Initialize? || m.Authenticate? || m.SessionNew? || m.Unsupported?
  }

  lemma RequestAccounts(s: Acp, m: Incoming, events: seq<Event>)
    requires RepliesAtOnce(m.kind)
    ensures Accounted(Receive(s, m, events)) == Accounted(s) + IdOf(m.id)
  {
    if m.kind.SessionNew? {
      NewSessionAccounts(s, m.id);
    } else {
      ReplyIfAskedAccounts(s, m.id, if m.kind.Initialize? then Plain
                                    else if m.kind.Authenticate? then Refused(INVALID_PARAMS)
                                    else Refused(METHOD_NOT_FOUND));
    }
  }

  lemma MessageAccounts(s: Acp, m: Incoming, events: seq<Event>)
    ensures Accounted(Receive(s, m, events)) ==
            Accounted(s) + if m.kind.SessionCancel? || m.kind.Response? then multiset{} else IdOf(m.id)
  {
    if RepliesAtOnce(m.kind) {
      RequestAccounts(s, m, events);
    } else if m.kind.SessionPrompt? {
      PromptAccounts(s, m.kind.sessionId, m.kind.usable, m.id, events);
    } else if m.kind.SessionCancel? {
      CancelAccounts(s);
    } else {
      RespondAccounts(s, m.id, m.kind.allow, m.kind.always, events);
    }
  }

  lemma StepAccounts(s: Acp, l: Label)
    ensures Accounted(Apply(s, l)) == Accounted(s) + AskedBy(l)
  {
    match l
    case Poll(events) => EventsKeepAccount(s, events);
    case Message(m, events) => MessageAccounts(s, m, events);
  }

  /** In every run each message that asks for a reply has been answered exactly once, but for the prompt in
      flight. */
  lemma {:induction false} EachRequestIsAnsweredOnce(labels: seq<Label>)
    ensures RepliedIds(Run(START, labels).out) + Pending(Run(START, labels)) == Asked(labels)
  {
    if labels != [] {
      EachRequestIsAnsweredOnce(labels[..|labels| - 1]);
      StepAccounts(Run(START, labels[..|labels| - 1]), labels[|labels| - 1]);
    }
  }

  /** Accepted but unanswered requests are none or one, and one exactly while a prompt is set. */
  lemma AtMostOnePromptIsOpen(labels: seq<Label>)
    ensures |Asked(labels)| - |RepliedIds(Run(START, labels).out)| ==
            if Run(START, labels).prompts.current.Some? then 1 else 0
  {
    EachRequestIsAnsweredOnce(labels);
  }

  /** The ids of messages with a method, which JSON-RPC calls requests. */
  function RequestedBy(l: Label): multiset<JsonId> {
    if l.Message? && !l.m.kind.Response? then IdOf(l.m.id) else multiset{}
  }

  function Requested(labels: seq<Label>): multiset<JsonId> {
    if labels == [] then multiset{} else Requested(labels[..|labels| - 1]) + RequestedBy(labels[|labels| - 1])
  }

  /** A cancel that carries an id although it is a notification. */
  predicate IsCancelWithId(l: Label) {
    l.Message? && l.m.kind.SessionCancel? && l.m.id.Some?
  }

  function CancelIds(labels: seq<Label>): multiset<JsonId> {
    if labels == [] then multiset{}
    else
      CancelIds(labels[..|labels| - 1]) +
      if IsCancelWithId(labels[|labels| - 1]) then multiset{labels[|labels| - 1].m.id.value} else multiset{}
  }

  lemma {:induction false} RequestedAreAskedOrCancels(labels: seq<Label>)
    ensures Requested(labels) == Asked(labels) + CancelIds(labels)
  {
    if labels != [] {
      RequestedAreAskedOrCancels(labels[..|labels| - 1]);
    }
  }

  lemma {:induction false} NoCancelIds(labels: seq<Label>)
    ensures |CancelIds(labels)| == 0 <==> forall i :: 0 <= i < |labels| ==> !IsCancelWithId(labels[i])
  {
    if labels != [] {
      NoCancelIds(labels[..|labels| - 1]);
    }
  }

  /** Every message with a method and an id is answered once, but for the prompt in flight, exactly when no
      cancel of the run carries an id: such a cancel gets no reply of its own. */
  lemma EveryIdIsAnsweredExactly(labels: seq<Label>)
    ensures RepliedIds(Run(START, labels).out) + Pending(Run(START, labels)) == Requested(labels) <==>
            forall i :: 0 <= i < |labels| ==> !IsCancelWithId(labels[i])
  {
    EachRequestIsAnsweredOnce(labels);
    RequestedAreAskedOrCancels(labels);
    NoCancelIds(labels);
    AddsNothing(Asked(labels), CancelIds(labels));
  }

  lemma AddsNothing(a: multiset<JsonId>, b: multiset<JsonId>)
    ensures a == a + b <==> |b| == 0
  {
    assert |a + b| == |a| + |b|;
    if |b| == 0 {
      assert b == multiset{};
    }
  }

  // ---------------------------------------------------------------- cancelling

  /** While a prompt is open it is not cancelled. */
  predicate OpenIsLive(s: Acp) {
    s.prompts.current.Some? ==> !s.prompts.cancelled
  }

  lemma {:induction false} EventsKeepLive(s: Acp, events: seq<Event>)
    requires OpenIsLive(s)
    ensures OpenIsLive(HandleEvents(s, events))
    decreases |events|
  {
    if events != [] {
      EventsKeepLive(HandleEvent(s, events[0]), events[1..]);
    }
  }

  lemma StepKeepsLive(s: Acp, l: Label)
    requires OpenIsLive(s)
    ensures OpenIsLive(Apply(s, l))
  {
    match l
    case Poll(events) => EventsKeepLive(s, events);
    case Message(m, events) =>
      match m.kind
      case SessionPrompt(_, _) => EventsKeepLive(s.(prompts := Prompts(m.id, false)), events);
      case Response(allow, always) =>
        if m.id.Some? && m.id.value.Text? && m.id.value.s in s.permissions.open {
          var open := s.permissions.open;
          EventsKeepLive(Approve(s.(permissions := s.permissions.(open := open - {m.id.value.s})),
                                 open[m.id.value.s], allow, always), events);
        }
      case _ =>
  }

  lemma {:induction false} RunKeepsLive(labels: seq<Label>)
    ensures OpenIsLive(Run(START, labels))
  {
    if labels != [] {
      RunKeepsLive(labels[..|labels| - 1]);
      StepKeepsLive(Run(START, labels[..|labels| - 1]), labels[|labels| - 1]);
    }
  }

  /** A prompt the engine finishes is never answered as cancelled: only the client's cancel does that. */
  lemma ReadyEndsTheTurn(labels: seq<Label>)
    ensures var s := Run(START, labels);
            s.prompts.current.Some? ==>
              && HandleEvent(s, Ready).out == s.out + [Reply(s.prompts.current.value, Done("end_turn"))]
              && Apply(s, Message(Incoming(SessionCancel, None), [])).out ==
                 s.out + [Reply(s.prompts.current.value, Done("cancelled"))]
  {
    RunKeepsLive(labels);
  }

  // ---------------------------------------------------------------- permissions

  lemma PermissionIdsDiffer(m: nat, n: nat)
    requires PermissionId(m) == PermissionId(n)
    ensures m == n
  {
    assert PermissionId(m)[5..] == Decimal(m) && PermissionId(n)[5..] == Decimal(n);
    DecimalInjective(m, n);
  }

  /** Nothing opens an id that was issued before. */
  predicate OnlyFreshOpen(s: Acp, t: Acp) {
    && s.permissions.counter <= t.permissions.counter
    && forall k: nat :: k <= s.permissions.counter && PermissionId(k) in t.permissions.open ==> PermissionId(k) in s.permissions.open
  }

  lemma EventOpensFresh(s: Acp, e: Event)
    ensures OnlyFreshOpen(s, HandleEvent(s, e))
  {
    forall k: nat | k <= s.permissions.counter && PermissionId(k) in HandleEvent(s, e).permissions.open
      ensures PermissionId(k) in s.permissions.open
    {
      if PermissionId(k) == PermissionId(s.permissions.counter + 1) {
        PermissionIdsDiffer(k, s.permissions.counter + 1);
      }
    }
  }

  lemma {:induction false} EventsOpenFresh(s: Acp, events: seq<Event>)
    ensures OnlyFreshOpen(s, HandleEvents(s, events))
    decreases |events|
  {
    if events != [] {
      EventOpensFresh(s, events[0]);
      EventsOpenFresh(HandleEvent(s, events[0]), events[1..]);
    }
  }

  lemma StepOpensFresh(s: Acp, l: Label)
    ensures OnlyFreshOpen(s, Apply(s, l))
  {
    match l
    case Poll(events) => EventsOpenFresh(s, events);
    case Message(m, events) =>
      match m.kind
      case SessionPrompt(_, _) => EventsOpenFresh(s.(prompts := Prompts(m.id, false)), events);
      case Response(allow, always) =>
        if m.id.Some? && m.id.value.Text? && m.id.value.s in s.permissions.open {
          var open := s.permissions.open;
          EventsOpenFresh(Approve(s.(permissions := s.permissions.(open := open - {m.id.value.s})),
                                  open[m.id.value.s], allow, always), events);
        }
      case _ =>
  }

  /** The step is a response that uses up this permission. */
  predicate Uses(s: Acp, l: Label, id: string) {
    l.Message? && l.m.kind.Response? && l.m.id == Some(Text(id)) && id in s.permissions.open
  }

  function StateAt(labels: seq<Label>, i: nat): Acp
    requires i <= |labels|
  {
    Run(START, labels[..i])
  }

  lemma NextState(labels: seq<Label>, i: nat)
    requires i < |labels|
    ensures StateAt(labels, i + 1) == Apply(StateAt(labels, i), labels[i])
  {
    assert labels[..i + 1][..i] == labels[..i];
  }

  /** Every open permission was issued. */
  predicate OpenIsIssued(s: Acp) {
    forall id :: id in s.permissions.open ==> exists k: nat :: k <= s.permissions.counter && id == PermissionId(k)
  }

  lemma EventKeepsIssued(s: Acp, e: Event)
    requires OpenIsIssued(s)
    ensures OpenIsIssued(HandleEvent(s, e))
  {
    var t := HandleEvent(s, e);
    forall id | id in t.permissions.open ensures exists k: nat :: k <= t.permissions.counter && id == PermissionId(k) {
      if id in s.permissions.open {
        var k: nat :| k <= s.permissions.counter && id == PermissionId(k);
        assert k <= t.permissions.counter;
      } else {
        assert id == PermissionId(t.permissions.counter);
      }
    }
  }

  lemma {:induction false} EventsKeepIssued(s: Acp, events: seq<Event>)
    requires OpenIsIssued(s)
    ensures OpenIsIssued(HandleEvents(s, events))
    decreases |events|
  {
    if events != [] {
      EventKeepsIssued(s, events[0]);
      EventsKeepIssued(HandleEvent(s, events[0]), events[1..]);
    }
  }

  lemma StepKeepsIssued(s: Acp, l: Label)
    requires OpenIsIssued(s)
    ensures OpenIsIssued(Apply(s, l))
  {
    match l
    case Poll(events) => EventsKeepIssued(s, events);
    case Message(m, events) =>
      match m.kind
      case SessionPrompt(_, _) => EventsKeepIssued(s.(prompts := Prompts(m.id, false)), events);
      case Response(allow, always) =>
        if m.id.Some? && m.id.value.Text? && m.id.value.s in s.permissions.open {
          var open := s.permissions.open;
          var t := Approve(s.(permissions := s.permissions.(open := open - {m.id.value.s})), open[m.id.value.s], allow, always);
          assert OpenIsIssued(t);
          EventsKeepIssued(t, events);
        }
      case _ =>
  }

  lemma {:induction false} RunKeepsIssued(labels: seq<Label>)
    ensures OpenIsIssued(Run(START, labels))
  {
    if labels != [] {
      RunKeepsIssued(labels[..|labels| - 1]);
      StepKeepsIssued(Run(START, labels[..|labels| - 1]), labels[|labels| - 1]);
    }
  }

  lemma {:induction false} UsedStaysClosed(labels: seq<Label>, i: nat, j: nat, k: nat)
    requires i <= j <= |labels| && k <= StateAt(labels, i).permissions.counter
    requires PermissionId(k) !in StateAt(labels, i).permissions.open
    ensures PermissionId(k) !in StateAt(labels, j).permissions.open
    decreases j - i
  {
    if i < j {
      NextState(labels, i);
      StepOpensFresh(StateAt(labels, i), labels[i]);
      UsedStaysClosed(labels, i + 1, j, k);
    }
  }

  lemma UseCloses(s: Acp, l: Label, k: nat)
    requires Uses(s, l, PermissionId(k)) && k <= s.permissions.counter
    ensures PermissionId(k) !in Apply(s, l).permissions.open && k <= Apply(s, l).permissions.counter
  {
    var open := s.permissions.open;
    EventsOpenFresh(Approve(s.(permissions := s.permissions.(open := open - {l.m.id.value.s})),
                            open[l.m.id.value.s], l.m.kind.allow, l.m.kind.always), l.events);
  }

  /** A permission is used at most once in a run, however often the client answers it. */
  lemma PermissionIsUsedOnce(labels: seq<Label>, i: nat, j: nat, id: string)
    requires i < j < |labels| && Uses(StateAt(labels, i), labels[i], id)
    ensures !Uses(StateAt(labels, j), labels[j], id)
  {
    RunKeepsIssued(labels[..i]);
    var k: nat :| k <= StateAt(labels, i).permissions.counter && id == PermissionId(k);
    NextState(labels, i);
    UseCloses(StateAt(labels, i), labels[i], k);
    UsedStaysClosed(labels, i + 1, j, k);
  }
}
