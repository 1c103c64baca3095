/** The agent's side of the Agent Client Protocol over JSON-RPC 2.0 (src/acp.rs): requests come in,
    the engine's events go out, and one prompt is in flight at a time. */
module AcpProtocol {
  import opened Common

  datatype JsonId = Text(s: string) | Number(n: int) | Other(json: string)

  datatype Method =
    | Initialize
    | Authenticate
    | SessionNew
    | SessionPrompt(sessionId: string, usable: bool)
    | SessionCancel
    | Unsupported
    | Response(allow: bool, always: bool)

  /** A message: `usable` says the prompt has text or an image; a response has no method. */
  datatype Incoming = Incoming(kind: Method, id: Option<JsonId>)

  datatype Event = ApprovalRequest(callId: string) | Failure(message: string) | Ready | Progress

  datatype Answer = Done(stopReason: string) | Plain | Refused(code: int)

  datatype Outgoing =
    | Reply(id: JsonId, answer: Answer)
    | PermissionRequest(requestId: string, callId: string)
    | Update

  datatype Approval = Approval(callId: string, allow: bool, always: bool)

  datatype Prompts = Prompts(current: Option<JsonId>, cancelled: bool)

  datatype Permissions = Permissions(counter: nat, open: map<string, string>)

  /** `out` is what was written, `approvals` what the engine was told. */
  datatype Acp = Acp(session: Option<string>, sessionCounter: nat, prompts: Prompts, permissions: Permissions,
                     out: seq<Outgoing>, approvals: seq<Approval>)

  const START := Acp(None, 0, Prompts(None, false), Permissions(0, map[]), [], [])

  const INVALID_PARAMS := -32602
  const METHOD_NOT_FOUND := -32601
  const INTERNAL_ERROR := -32603

  function Write(s: Acp, o: Outgoing): Acp {
    s.(out := s.out + [o])
  }

  function ReplyIfAsked(s: Acp, id: Option<JsonId>, answer: Answer): Acp {
    if id.Some? then Write(s, Reply(id.value, answer)) else s
  }

  function Approve(s: Acp, callId: string, allow: bool, always: bool): Acp {
    s.(approvals := s.approvals + [Approval(callId, allow, always)])
  }

  function PermissionId(n: nat): string {
    "perm-" + Decimal(n)
  }

  // ---------------------------------------------------------------- the engine's events

  /** The prompt in flight, if any, is answered. */
  function Settle(s: Acp, answer: Answer): Acp {
    match s.prompts.current
    case None => s
    case Some(id) => Write(s.(prompts := s.prompts.(current := None)), Reply(id, answer))
  }

  function AskPermission(s: Acp, callId: string): Acp {
    if s.session.None? then Approve(s, callId, false, false)
    else
      var n := s.permissions.counter + 1;
      Write(s.(permissions := Permissions(n, s.permissions.open[PermissionId(n) := callId])),
            PermissionRequest(PermissionId(n), callId))
  }

  /** `handle_core_event`. */
  function HandleEvent(s: Acp, e: Event): Acp {
    match e
    case ApprovalRequest(callId) => AskPermission(s, callId)
    case Failure(_) => Settle(s, Refused(INTERNAL_ERROR))
    case Ready => Settle(s, Done(if s.prompts.cancelled then "cancelled" else "end_turn"))
    case Progress => if s.session.Some? then Write(s, Update) else s
  }

  function HandleEvents(s: Acp, events: seq<Event>): Acp
    decreases |events|
  {
    if events == [] then s else HandleEvents(HandleEvent(s, events[0]), events[1..])
  }

  // ---------------------------------------------------------------- the client's messages

  function NewSession(s: Acp, id: Option<JsonId>): Acp {
    match id
    case None => s
    case Some(i) =>
      var n := s.sessionCounter + 1;
      Write(s.(session := Some("sess-" + Decimal(n)), sessionCounter := n), Reply(i, Plain))
  }

  predicate Accepts(s: Acp, sessionId: string, usable: bool, id: Option<JsonId>) {
    id.Some? && s.session == Some(sessionId) && s.prompts.current.None? && usable
  }

  /** `session/prompt`: the engine's first events are handled with it. */
  function Prompt(s: Acp, sessionId: string, usable: bool, id: Option<JsonId>, events: seq<Event>): Acp {
    if id.None? then s
    else if !Accepts(s, sessionId, usable, id) then Write(s, Reply(id.value, Refused(INVALID_PARAMS)))
    else HandleEvents(s.(prompts := Prompts(id, false)), events)
  }

  function Cancel(s: Acp): Acp {
    Settle(s.(prompts := s.prompts.(cancelled := true)), Done("cancelled"))
  }

  /** A response: to a permission request that is open, or to nothing. */
  function Respond(s: Acp, id: Option<JsonId>, allow: bool, always: bool, events: seq<Event>): Acp {
    if id.None? || !id.value.Text? || id.value.s !in s.permissions.open then s
    else
      var open := s.permissions.open;
      HandleEvents(Approve(s.(permissions := s.permissions.(open := open - {id.value.s})), open[id.value.s], allow, always),
                   events)
  }

  /** `handle_message`; `events` are the engine's when it is called. */
  function Receive(s: Acp, m: Incoming, events: seq<Event>): Acp {
    match m.kind
    case Initialize => ReplyIfAsked(s, m.id, Plain)
    case Authenticate => ReplyIfAsked(s, m.id, Refused(INVALID_PARAMS))
    case SessionNew => NewSession(s, m.id)
    case SessionPrompt(sessionId, usable) => Prompt(s, sessionId, usable, m.id, events)
    case SessionCancel => Cancel(s)
    case Unsupported => ReplyIfAsked(s, m.id, Refused(METHOD_NOT_FOUND))
    case Response(allow, always) => Respond(s, m.id, allow, always, events)
  }

  datatype Label = Message(m: Incoming, events: seq<Event>) | Poll(events: seq<Event>)

  function Apply(s: Acp, l: Label): Acp {
    match l
    case Message(m, events) => Receive(s, m, events)
    case Poll(events) => if s.prompts.current.Some? then HandleEvents(s, events) else s
  }

  function Run(s: Acp, labels: seq<Label>): Acp {
    if labels == [] then s else Apply(Run(s, labels[..|labels| - 1]), labels[|labels| - 1])
  }

  // ---------------------------------------------------------------- the state as it is kept

  class AcpState {
    var activeSession: Option<string>
    var sessionCounter: nat
    var promptId: Option<JsonId>
    var promptCancelled: bool
    var permissionCounter: nat
    var permissionRequests: map<string, string>
    var out: seq<Outgoing>
    var approvals: seq<Approval>

    ghost function View(): Acp
      reads this
    {
      Acp(activeSession, sessionCounter, Prompts(promptId, promptCancelled),
          Permissions(permissionCounter, permissionRequests), out, approvals)
    }

    constructor ()
      ensures View() == START
    {
      activeSession, sessionCounter, promptId, promptCancelled := None, 0, None, false;
      permissionCounter, permissionRequests, out, approvals := 0, map[], [], [];
    }

    method WriteLine(o: Outgoing)
      modifies this`out
      ensures out == old(out) + [o]
    {
      out := out + [o];
    }

    method SettlePrompt(answer: Answer)
      modifies this`promptId, this`out
      ensures View() == Settle(old(View()), answer)
    {
      if promptId.Some? {
        WriteLine(Reply(promptId.value, answer));
        promptId := None;
      }
    }

    method HandleCoreEvent(e: Event)
      modifies this
      ensures View() == HandleEvent(old(View()), e)
    {
      match e {
        case ApprovalRequest(callId) =>
          if activeSession.None? {
            approvals := approvals + [Approval(callId, false, false)];
          } else {
            permissionCounter := permissionCounter + 1;
            permissionRequests := permissionRequests[PermissionId(permissionCounter) := callId];
            WriteLine(PermissionRequest(PermissionId(permissionCounter), callId));
          }
        case Failure(_) => SettlePrompt(Refused(INTERNAL_ERROR));
        case Ready => SettlePrompt(Done(if promptCancelled then "cancelled" else "end_turn"));
        case Progress =>
          if activeSession.Some? {
            WriteLine(Update);
          }
      }
    }

    method HandleCoreEvents(events: seq<Event>)
      modifies this
      ensures View() == HandleEvents(old(View()), events)
    {
      var rest := events;
      while rest != []
        invariant HandleEvents(old(View()), events) == HandleEvents(View(), rest)
        decreases |rest|
      {
        HandleCoreEvent(rest[0]);
        rest := rest[1..];
      }
    }

    method HandlePrompt(sessionId: string, usable: bool, id: JsonId, events: seq<Event>)
      modifies this
      ensures View() == Prompt(old(View()), sessionId, usable, Some(id), events)
    {
      if activeSession != Some(sessionId) || promptId.Some? || !usable {
        WriteLine(Reply(id, Refused(INVALID_PARAMS)));
        return;
      }
      promptId, promptCancelled := Some(id), false;
      HandleCoreEvents(events);
    }

    method HandleResponse(id: Option<JsonId>, allow: bool, always: bool, events: seq<Event>)
      modifies this
      ensures View() == Respond(old(View()), id, allow, always, events)
    {
      if id.None? || !id.value.Text? || id.value.s !in permissionRequests {
        return;
      }
      var callId := permissionRequests[id.value.s];
      permissionRequests := permissionRequests - {id.value.s};
      approvals := approvals + [Approval(callId, allow, always)];
      HandleCoreEvents(events);
    }

    method HandleMessage(m: Incoming, events: seq<Event>)
      modifies this
      ensures View() == Receive(old(View()), m, events)
    {
      if m.kind.SessionCancel? {
        promptCancelled := true;
        SettlePrompt(Done("cancelled"));
      } else if m.kind.Response? {
        HandleResponse(m.id, m.kind.allow, m.kind.always, events);
      } else if m.id.Some? {
        HandleRequest(m.kind, m.id.value, events);
      }
    }

    method HandleRequest(request: Method, id: JsonId, events: seq<Event>)
      requires !request.SessionCancel? && !request.Response?
      modifies this
      ensures View() == Receive(old(View()), Incoming(request, Some(id)), events)
    {
      match request {
        case Initialize => WriteLine(Reply(id, Plain));
        case Authenticate => WriteLine(Reply(id, Refused(INVALID_PARAMS)));
        case SessionNew =>
          sessionCounter := sessionCounter + 1;
          activeSession := Some("sess-" + Decimal(sessionCounter));
          WriteLine(Reply(id, Plain));
        case SessionPrompt(sessionId, usable) => HandlePrompt(sessionId, usable, id, events);
        case Unsupported => WriteLine(Reply(id, Refused(METHOD_NOT_FOUND)));
      }
    }
  }
}
