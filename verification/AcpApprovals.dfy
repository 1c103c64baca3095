/** What the engine is told of the client's answers: each response to a permission that is open approves or
    denies the very call that permission was asked for, and nothing else approves anything. */
module AcpApprovals {
  import opened Common
  import opened AcpProtocol
  import opened AcpTheorems

  // ---------------------------------------------------------------- permissions that were asked for

  predicate AskedFor(s: Acp, id: string, callId: string) {
    PermissionRequest(id, callId) in s.out
  }

  /** What was asked of the client, as it is kept: each id for one call, and nothing without a session. */
  ghost predicate Wired(s: Acp) {
    && (forall id :: id in s.permissions.open ==> AskedFor(s, id, s.permissions.open[id]))
    && (forall id, callId :: AskedFor(s, id, callId) ==> IsIssued(s, id))
    && (forall id, one, other :: AskedFor(s, id, one) && AskedFor(s, id, other) ==> one == other)
    && (s.session.None? ==> s.prompts.current.None? && s.permissions.open == map[])
  }

  predicate IsIssued(s: Acp, id: string) {
    exists k: nat :: k <= s.permissions.counter && id == PermissionId(k)
  }

  ghost predicate WasAsked(s: Acp, id: string) {
    exists callId :: AskedFor(s, id, callId)
  }

  /** What handling events does to permissions: it asks for new ones only, and approves nothing. */
  ghost predicate AsksOnly(s: Acp, t: Acp) {
    && s.out <= t.out && t.approvals == s.approvals && t.session == s.session
    && forall id :: id in t.permissions.open <==> id in s.permissions.open || (WasAsked(t, id) && !WasAsked(s, id))
  }

  lemma AsksMore(s: Acp, t: Acp)
    requires s.out <= t.out
    ensures forall id, callId :: AskedFor(s, id, callId) ==> AskedFor(t, id, callId)
    ensures forall id :: WasAsked(s, id) ==> WasAsked(t, id)
  {
    forall id, callId | AskedFor(s, id, callId) ensures AskedFor(t, id, callId) {
      var i :| 0 <= i < |s.out| && s.out[i] == PermissionRequest(id, callId);
      assert t.out[i] == s.out[i];
    }
  }

  lemma FreshIsUnasked(s: Acp)
    requires Wired(s)
    ensures !WasAsked(s, PermissionId(s.permissions.counter + 1))
  {
    var id := PermissionId(s.permissions.counter + 1);
    if callId :| AskedFor(s, id, callId) {
      var k: nat :| k <= s.permissions.counter && id == PermissionId(k);
      PermissionIdsDiffer(k, s.permissions.counter + 1);
    }
  }

  lemma NewPermission(s: Acp, callId: string) returns (id: string, t: Acp)
    requires s.session.Some?
    ensures t == AskPermission(s, callId) && id == PermissionId(s.permissions.counter + 1)
    ensures t.out == s.out + [PermissionRequest(id, callId)] && t.approvals == s.approvals && t.session == s.session
    ensures t.permissions.open == s.permissions.open[id := callId] && t.permissions.counter == s.permissions.counter + 1
    ensures t.prompts == s.prompts
    ensures forall i, c :: AskedFor(t, i, c) <==> AskedFor(s, i, c) || (i == id && c == callId)
  {
    id, t := PermissionId(s.permissions.counter + 1), AskPermission(s, callId);
  }

  lemma PermissionAsksOnly(s: Acp, callId: string)
    requires Wired(s) && s.session.Some?
    ensures Wired(AskPermission(s, callId)) && AsksOnly(s, AskPermission(s, callId))
  {
    var id, t := NewPermission(s, callId);
    FreshIsUnasked(s);
    forall i | IsIssued(s, i) ensures IsIssued(t, i) {
      var k: nat :| k <= s.permissions.counter && i == PermissionId(k);
      assert k <= t.permissions.counter;
    }
    assert IsIssued(t, id);
    forall i ensures WasAsked(t, i) <==> WasAsked(s, i) || i == id {
      if i == id {
        assert AskedFor(t, i, callId);
      }
      if c :| AskedFor(s, i, c) {
        assert AskedFor(t, i, c);
      }
    }
    assert forall i :: i in s.permissions.open ==> i != id by {
      forall i | i in s.permissions.open ensures i != id {
        assert AskedFor(s, i, s.permissions.open[i]);
      }
    }
  }

  lemma SameRequests(s: Acp, t: Acp)
    requires Wired(s) && t.out == s.out && t.permissions.counter == s.permissions.counter
    requires forall id :: id in t.permissions.open ==> id in s.permissions.open && t.permissions.open[id] == s.permissions.open[id]
    requires t.session.None? ==> t.prompts.current.None? && t.permissions.open == map[]
    ensures Wired(t) && forall id :: WasAsked(t, id) <==> WasAsked(s, id)
  {
    assert forall id, callId :: AskedFor(t, id, callId) <==> AskedFor(s, id, callId);
    forall id | IsIssued(s, id) ensures IsIssued(t, id) {
      var k: nat :| k <= s.permissions.counter && id == PermissionId(k);
      assert k <= t.permissions.counter;
    }
  }

  lemma PlainWrite(s: Acp, t: Acp, o: Outgoing)
    requires Wired(s) && t.out == s.out + [o] && !o.PermissionRequest?
    requires t.permissions == s.permissions && t.approvals == s.approvals && t.session == s.session
    requires t.prompts.current.Some? ==> s.session.Some?
    ensures Wired(t) && AsksOnly(s, t)
  {
    assert forall id, callId :: AskedFor(t, id, callId) <==> AskedFor(s, id, callId);
    assert forall id :: WasAsked(t, id) <==> WasAsked(s, id);
    forall id | IsIssued(s, id) ensures IsIssued(t, id) {
      var k: nat :| k <= s.permissions.counter && id == PermissionId(k);
      assert k <= t.permissions.counter;
    }
  }

  lemma SettleAsksOnly(s: Acp, answer: Answer)
    requires Wired(s)
    ensures Wired(Settle(s, answer)) && AsksOnly(s, Settle(s, answer))
  {
    if s.prompts.current.Some? {
      PlainWrite(s, Settle(s, answer), Reply(s.prompts.current.value, answer));
    }
  }

  lemma EventAsksOnly(s: Acp, e: Event)
    requires Wired(s) && s.session.Some?
    ensures Wired(HandleEvent(s, e)) && AsksOnly(s, HandleEvent(s, e))
  {
    match e
    case ApprovalRequest(callId) => PermissionAsksOnly(s, callId);
    case Failure(_) => SettleAsksOnly(s, Refused(INTERNAL_ERROR));
    case Ready => SettleAsksOnly(s, Done(if s.prompts.cancelled then "cancelled" else "end_turn"));
    case Progress => PlainWrite(s, HandleEvent(s, e), Update);
  }

  lemma AsksOnlyOn(s: Acp, t: Acp, u: Acp)
    requires AsksOnly(s, t) && AsksOnly(t, u)
    ensures AsksOnly(s, u)
  {
    AsksMore(s, t);
    AsksMore(t, u);
  }

  lemma {:induction false} EventsAskOnly(s: Acp, events: seq<Event>)
    requires Wired(s) && s.session.Some?
    ensures Wired(HandleEvents(s, events)) && AsksOnly(s, HandleEvents(s, events))
    decreases |events|
  {
    if events != [] {
      EventAsksOnly(s, events[0]);
      EventsAskOnly(HandleEvent(s, events[0]), events[1..]);
      AsksOnlyOn(s, HandleEvent(s, events[0]), HandleEvents(s, events));
    }
  }

  // ---------------------------------------------------------------- one step

  /** The step answers a permission; otherwise it only asks for some. */
  ghost predicate StepTells(s: Acp, l: Label, t: Acp) {
    && s.out <= t.out
    && (forall id :: id in t.permissions.open <==> (id in s.permissions.open && !Uses(s, l, id)) || (WasAsked(t, id) && !WasAsked(s, id)))
    && (forall id :: Uses(s, l, id) ==> t.approvals == s.approvals + [Approval(s.permissions.open[id], l.m.kind.allow, l.m.kind.always)])
    && ((forall id :: !Uses(s, l, id)) ==> t.approvals == s.approvals)
  }

  lemma AskingStep(s: Acp, l: Label, t: Acp)
    requires AsksOnly(s, t) && forall id :: !Uses(s, l, id)
    ensures StepTells(s, l, t)
  {
  }

  lemma AnsweringStep(s: Acp, l: Label, id: string, used: Acp, t: Acp)
    requires Uses(s, l, id) && AsksOnly(used, t) && used.out == s.out
    requires used.permissions.open == s.permissions.open - {id}
    requires used.approvals == s.approvals + [Approval(s.permissions.open[id], l.m.kind.allow, l.m.kind.always)]
    ensures StepTells(s, l, t)
  {
    assert forall i :: Uses(s, l, i) <==> i == id;
    assert forall i, callId :: AskedFor(used, i, callId) <==> AskedFor(s, i, callId);
    assert forall i :: WasAsked(used, i) <==> WasAsked(s, i);
  }

  lemma ResponseTells(s: Acp, l: Label)
    requires Wired(s) && l.Message? && l.m.kind.Response?
    ensures Wired(Apply(s, l)) && StepTells(s, l, Apply(s, l))
  {
    if l.m.id.Some? && l.m.id.value.Text? && l.m.id.value.s in s.permissions.open {
      var id := l.m.id.value.s;
      var used := Approve(s.(permissions := s.permissions.(open := s.permissions.open - {id})), s.permissions.open[id], l.m.kind.allow, l.m.kind.always);
      SameRequests(s, used);
      EventsAskOnly(used, l.events);
      AnsweringStep(s, l, id, used, Apply(s, l));
    } else {
      AsksMore(s, s);
      AskingStep(s, l, s);
    }
  }

  lemma ReplyTells(s: Acp, l: Label)
    requires Wired(s) && l.Message? && RepliesAtOnce(l.m.kind)
    ensures Wired(Apply(s, l)) && StepTells(s, l, Apply(s, l))
  {
    var t := Apply(s, l);
    if l.m.id.Some? {
      var started := s.(session := t.session, sessionCounter := t.sessionCounter);
      SameRequests(s, started);
      PlainWrite(started, t, t.out[|s.out|]);
    } else {
      AsksMore(s, s);
      AskingStep(s, l, s);
    }
  }

  lemma PromptTells(s: Acp, l: Label)
    requires Wired(s) && l.Message? && l.m.kind.SessionPrompt?
    ensures Wired(Apply(s, l)) && StepTells(s, l, Apply(s, l))
  {
    if Accepts(s, l.m.kind.sessionId, l.m.kind.usable, l.m.id) {
      var begun := s.(prompts := Prompts(l.m.id, false));
      SameRequests(s, begun);
      EventsAskOnly(begun, l.events);
    } else if l.m.id.Some? {
      PlainWrite(s, Apply(s, l), Reply(l.m.id.value, Refused(INVALID_PARAMS)));
    }
  }

  lemma StepIsWired(s: Acp, l: Label)
    requires Wired(s)
    ensures Wired(Apply(s, l)) && StepTells(s, l, Apply(s, l))
  {
    if l.Poll? {
      if s.prompts.current.Some? {
        EventsAskOnly(s, l.events);
      }
    } else if RepliesAtOnce(l.m.kind) {
      ReplyTells(s, l);
    } else if l.m.kind.SessionPrompt? {
      PromptTells(s, l);
    } else if l.m.kind.Response? {
      ResponseTells(s, l);
    } else {
      CancelTells(s, l);
    }
  }

  lemma CancelTells(s: Acp, l: Label)
    requires Wired(s) && l.Message? && l.m.kind.SessionCancel?
    ensures Wired(Apply(s, l)) && StepTells(s, l, Apply(s, l))
  {
    if s.prompts.current.Some? {
      PlainWrite(s, Apply(s, l), Reply(s.prompts.current.value, Done("cancelled")));
    } else {
      assert forall i, c :: AskedFor(Apply(s, l), i, c) <==> AskedFor(s, i, c);
    }
  }

  // ---------------------------------------------------------------- runs

  lemma {:induction false} RunIsWired(labels: seq<Label>)
    ensures Wired(Run(START, labels))
  {
    if labels != [] {
      RunIsWired(labels[..|labels| - 1]);
      StepIsWired(Run(START, labels[..|labels| - 1]), labels[|labels| - 1]);
    }
  }

  predicate UsedAt(labels: seq<Label>, j: nat, id: string)
    requires j < |labels|
  {
    Uses(StateAt(labels, j), labels[j], id)
  }

  predicate UsedIn(labels: seq<Label>, id: string) {
    exists j :: 0 <= j < |labels| && UsedAt(labels, j, id)
  }

  lemma UsedLast(labels: seq<Label>, id: string)
    requires labels != []
    ensures var n := |labels| - 1;
            UsedIn(labels, id) <==> UsedIn(labels[..n], id) || Uses(Run(START, labels[..n]), labels[n], id)
  {
    var n := |labels| - 1;
    forall j | 0 <= j < n ensures UsedAt(labels, j, id) <==> UsedAt(labels[..n], j, id) {
      assert labels[..n][..j] == labels[..j];
    }
    if j :| 0 <= j < n && UsedAt(labels[..n], j, id) {
      assert UsedAt(labels, j, id);
    }
    assert UsedAt(labels, n, id) <==> Uses(Run(START, labels[..n]), labels[n], id);
  }

  /** In every run a permission is open exactly if the client was asked for it and has not answered it yet. */
  lemma {:induction false} OpenExactly(labels: seq<Label>, id: string)
    ensures UsedIn(labels, id) ==> WasAsked(Run(START, labels), id)
    ensures id in Run(START, labels).permissions.open <==> WasAsked(Run(START, labels), id) && !UsedIn(labels, id)
  {
    if labels != [] {
      var before, l := labels[..|labels| - 1], labels[|labels| - 1];
      var s := Run(START, before);
      OpenExactly(before, id);
      RunIsWired(before);
      StepIsWired(s, l);
      AsksMore(s, Apply(s, l));
      UsedLast(labels, id);
    }
  }

  /** The client's response to a permission it was asked for and has not answered approves or denies, as it
      says, the one call that permission was asked for. No other message and no event tells the engine
      anything. */
  lemma ResponseReachesTheEngine(labels: seq<Label>, l: Label)
    ensures var s, t := Run(START, labels), Apply(Run(START, labels), l);
            var answers := l.Message? && l.m.kind.Response? && l.m.id.Some? && l.m.id.value.Text?
                           && WasAsked(s, l.m.id.value.s) && !UsedIn(labels, l.m.id.value.s);
            && (!answers ==> t.approvals == s.approvals)
            && (answers ==> forall callId :: AskedFor(s, l.m.id.value.s, callId) ==>
                              t.approvals == s.approvals + [Approval(callId, l.m.kind.allow, l.m.kind.always)])
  {
    var s := Run(START, labels);
    RunIsWired(labels);
    StepIsWired(s, l);
    if l.Message? && l.m.kind.Response? && l.m.id.Some? && l.m.id.value.Text? {
      OpenExactly(labels, l.m.id.value.s);
    }
  }

  /** Without a session a request would be denied at once; no run comes to that, for no prompt and no
      permission is open without one. */
  lemma NoSessionNoEvents(labels: seq<Label>, callId: string)
    ensures var s := Run(START, labels);
            s.session.None? ==>
              && HandleEvent(s, ApprovalRequest(callId)).approvals == s.approvals + [Approval(callId, false, false)]
              && HandleEvent(s, ApprovalRequest(callId)).out == s.out
              && forall m: Incoming, events :: !m.kind.SessionNew? ==> Apply(s, Message(m, events)).session.None? && Apply(s, Poll(events)) == s
  {
    RunIsWired(labels);
  }

  // ---------------------------------------------------------------- prompts

  function SessionsAsked(labels: seq<Label>): nat {
    if labels == [] then 0
    else
      var l := labels[|labels| - 1];
      SessionsAsked(labels[..|labels| - 1]) + if l.Message? && l.m.kind.SessionNew? && l.m.id.Some? then 1 else 0
  }

  lemma {:induction false} EventsKeepSession(s: Acp, events: seq<Event>)
    ensures HandleEvents(s, events).session == s.session && HandleEvents(s, events).sessionCounter == s.sessionCounter
    decreases |events|
  {
    if events != [] {
      EventsKeepSession(HandleEvent(s, events[0]), events[1..]);
    }
  }

  lemma StepKeepsSession(s: Acp, l: Label)
    ensures var opens := l.Message? && l.m.kind.SessionNew? && l.m.id.Some?;
            && Apply(s, l).sessionCounter == s.sessionCounter + (if opens then 1 else 0)
            && Apply(s, l).session == if opens then Some("sess-" + Decimal(s.sessionCounter + 1)) else s.session
  {
    if l.Poll? {
      EventsKeepSession(s, l.events);
    } else if l.m.kind.SessionPrompt? {
      EventsKeepSession(s.(prompts := Prompts(l.m.id, false)), l.events);
    } else if l.m.kind.Response? && l.m.id.Some? && l.m.id.value.Text? && l.m.id.value.s in s.permissions.open {
      var open := s.permissions.open;
      EventsKeepSession(Approve(s.(permissions := s.permissions.(open := open - {l.m.id.value.s})),
                                open[l.m.id.value.s], l.m.kind.allow, l.m.kind.always), l.events);
    }
  }

  /** The session is always the one opened last, numbered by how many were. */
  lemma {:induction false} SessionIsTheLast(labels: seq<Label>)
    ensures var n := SessionsAsked(labels);
            && Run(START, labels).sessionCounter == n
            && Run(START, labels).session == if n == 0 then None else Some("sess-" + Decimal(n))
  {
    if labels != [] {
      SessionIsTheLast(labels[..|labels| - 1]);
      StepKeepsSession(Run(START, labels[..|labels| - 1]), labels[|labels| - 1]);
    }
  }

  /** A prompt is let in exactly if it is for the session opened last, everything asked before is answered, and
      there is something in it; any other is refused at once, and changes nothing else. */
  lemma PromptExactly(labels: seq<Label>, sessionId: string, usable: bool, id: JsonId)
    ensures var s, t := Run(START, labels), Apply(Run(START, labels), Message(Incoming(SessionPrompt(sessionId, usable), Some(id)), []));
            var n := SessionsAsked(labels);
            if n > 0 && sessionId == "sess-" + Decimal(n) && |Asked(labels)| == |RepliedIds(s.out)| && usable
            then t == s.(prompts := Prompts(Some(id), false))
            else t == s.(out := s.out + [Reply(id, Refused(INVALID_PARAMS))])
  {
    SessionIsTheLast(labels);
    AtMostOnePromptIsOpen(labels);
  }

  /** What every other request is answered, by the codes of section 5.1 of JSON-RPC 2.0: invalid parameters are
      -32602, an unknown method is -32601. A message without an id is not answered, and opens nothing. */
  lemma RequestsAreAnswered(s: Acp, kind: Method, id: Option<JsonId>, events: seq<Event>)
    requires kind.Initialize? || kind.Authenticate? || kind.Unsupported? || kind.SessionNew? || (kind.SessionPrompt? && id.None?)
    ensures var t := Apply(s, Message(Incoming(kind, id), events));
            && (id.None? ==> t == s)
            && (id.Some? && !kind.SessionNew? ==>
                  t == s.(out := s.out + [Reply(id.value, if kind.Initialize? then Plain
                                                          else if kind.Authenticate? then Refused(-32602) else Refused(-32601))]))
  {
  }
}
