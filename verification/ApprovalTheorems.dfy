/** What every run of the approval protocol keeps: each request has exactly one fate, nothing is parked
    unwatched or ungated, selections are honest, and a decision on an action is final. */
module ApprovalTheorems {
  import opened Common
  import opened ApprovalState

  // ---------------------------------------------------------------- each ticket in one place

  predicate Waits(c: Channels, ticket: nat)
    requires ticket < |c.asked|
  {
    c.asked[ticket] in c.waiting
  }

  predicate Parked(c: Channels, pending: map<string, Request>, ticket: nat)
    requires ticket < |c.asked|
  {
    c.asked[ticket].callId in pending && pending[c.asked[ticket].callId] == c.asked[ticket]
  }

  /** A request is waiting, parked, answered once, or the one in the core's hand. */
  predicate HasOneFate(c: Channels, pending: map<string, Request>, held: Option<nat>, ticket: nat)
    requires ticket < |c.asked| && |c.answers| == |c.asked|
  {
    if held == Some(ticket) then !Waits(c, ticket) && !Parked(c, pending, ticket) && c.answers[ticket] == []
    else if Waits(c, ticket) then !Parked(c, pending, ticket) && c.answers[ticket] == []
    else if Parked(c, pending, ticket) then c.answers[ticket] == []
    else |c.answers[ticket]| == 1 && Honest(c.answers[ticket][0], c.asked[ticket])
  }

  /** A selection that is sent allows some of the parked hunks, each named once. */
  predicate Honest(outcome: Outcome, r: Request) {
    outcome.Sent? && outcome.decision.hunks.Some? ==>
      && outcome.decision.allow && outcome.decision.hunks.value != [] && Distinct(outcome.decision.hunks.value)
      && forall i :: 0 <= i < |outcome.decision.hunks.value| ==> outcome.decision.hunks.value[i] in r.hunkIds
  }

  predicate IsAsked(c: Channels, r: Request) {
    r.ticket < |c.asked| && c.asked[r.ticket] == r
  }

  predicate Orderly(c: Channels) {
    && |c.answers| == |c.asked|
    && (forall t :: 0 <= t < |c.asked| ==> c.asked[t].ticket == t)
    && (forall i :: 0 <= i < |c.waiting| ==> IsAsked(c, c.waiting[i]))
    && (forall i, j :: 0 <= i < j < |c.waiting| ==> c.waiting[i].ticket < c.waiting[j].ticket)
    && (!c.listening ==> c.waiting == [])
  }

  predicate KeyedByCall(c: Channels, pending: map<string, Request>) {
    forall call :: call in pending ==> pending[call].callId == call && IsAsked(c, pending[call])
  }

  predicate Settled(c: Channels, pending: map<string, Request>, held: Option<nat>) {
    && Orderly(c) && KeyedByCall(c, pending)
    && forall t :: 0 <= t < |c.asked| ==> HasOneFate(c, pending, held, t)
  }

  lemma TakeWaiting(c: Channels, pending: map<string, Request>)
    requires Settled(c, pending, None) && c.waiting != []
    ensures Settled(c.(waiting := c.waiting[1..]), pending, Some(c.waiting[0].ticket))
    ensures IsAsked(c, c.waiting[0])
  {
    var first, d := c.waiting[0], c.(waiting := c.waiting[1..]);
    assert IsAsked(c, first);
    forall t | 0 <= t < |c.asked| ensures HasOneFate(d, pending, Some(first.ticket), t) {
      assert HasOneFate(c, pending, None, t);
      if t == first.ticket {
        assert Waits(c, t);
      } else {
        WaitsInRest(c, t);
      }
    }
    assert forall i :: 0 <= i < |d.waiting| ==> d.waiting[i] == c.waiting[i + 1];
  }

  lemma WaitsInRest(c: Channels, t: nat)
    requires Orderly(c) && c.waiting != [] && t < |c.asked| && t != c.waiting[0].ticket
    ensures Waits(c, t) <==> Waits(c.(waiting := c.waiting[1..]), t)
  {
    assert c.waiting == [c.waiting[0]] + c.waiting[1..];
  }

  lemma Unpark(c: Channels, pending: map<string, Request>, call: string)
    requires Settled(c, pending, None) && call in pending
    ensures Settled(c, pending - {call}, Some(pending[call].ticket)) && IsAsked(c, pending[call])
  {
    var held := pending[call].ticket;
    forall t | 0 <= t < |c.asked| ensures HasOneFate(c, pending - {call}, Some(held), t) {
      assert HasOneFate(c, pending, None, t);
    }
  }

  lemma AnswerHeld(c: Channels, pending: map<string, Request>, ticket: nat, outcome: Outcome)
    requires Settled(c, pending, Some(ticket)) && ticket < |c.asked| && Honest(outcome, c.asked[ticket])
    ensures Settled(Send(c, ticket, outcome), pending, None)
  {
    var d := Send(c, ticket, outcome);
    forall t | 0 <= t < |d.asked| ensures HasOneFate(d, pending, None, t) {
      assert HasOneFate(c, pending, Some(ticket), t);
    }
  }

  lemma ParkHeld(c: Channels, pending: map<string, Request>, r: Request)
    requires Settled(c, pending, Some(r.ticket)) && IsAsked(c, r) && r.callId !in pending
    ensures Settled(c, pending[r.callId := r], None)
  {
    var after := pending[r.callId := r];
    forall t | 0 <= t < |c.asked| ensures HasOneFate(c, after, None, t) {
      assert HasOneFate(c, pending, Some(r.ticket), t);
    }
  }

  /** The parked request of the same call id is answered first, then its place is free. */
  lemma Unseat(c: Channels, pending: map<string, Request>, r: Request)
    requires Settled(c, pending, Some(r.ticket)) && IsAsked(c, r) && r.callId in pending
    ensures Settled(Send(c, pending[r.callId].ticket, Dropped), pending - {r.callId}, Some(r.ticket))
  {
    var seated := pending[r.callId];
    var d := Send(c, seated.ticket, Dropped);
    assert Parked(c, pending, seated.ticket) && HasOneFate(c, pending, Some(r.ticket), r.ticket);
    forall t | 0 <= t < |d.asked| ensures HasOneFate(d, pending - {r.callId}, Some(r.ticket), t) {
      assert HasOneFate(c, pending, Some(r.ticket), t);
    }
  }

  lemma AskDropped(c: Channels, pending: map<string, Request>, r: Request)
    requires Settled(c, pending, None) && !c.listening && r.ticket == |c.asked|
    ensures Settled(Issue(c, r, [Dropped]), pending, None)
  {
    var d := Issue(c, r, [Dropped]);
    forall t | 0 <= t < |d.asked| ensures HasOneFate(d, pending, None, t) {
      if t < |c.asked| {
        assert HasOneFate(c, pending, None, t) && d.asked[t] == c.asked[t];
      }
    }
  }

  lemma AskQueued(c: Channels, pending: map<string, Request>, r: Request)
    requires Settled(c, pending, None) && c.listening && r.ticket == |c.asked|
    ensures Settled(Issue(c.(waiting := c.waiting + [r]), r, []), pending, None)
  {
    var d := Issue(c.(waiting := c.waiting + [r]), r, []);
    forall t | 0 <= t < |d.asked| ensures HasOneFate(d, pending, None, t) {
      if t < |c.asked| {
        assert HasOneFate(c, pending, None, t) && d.asked[t] == c.asked[t];
      } else {
        assert d.waiting[|c.waiting|] == r == d.asked[t];
      }
    }
  }

  lemma FreeSettles(c: Channels, pending: map<string, Request>, calls: set<string>, outcome: Outcome)
    requires Settled(c, pending, None) && (outcome.Sent? ==> outcome.decision.hunks == None)
    ensures Settled(SendParked(c, pending, calls, outcome), pending - calls, None)
  {
    var d := SendParked(c, pending, calls, outcome);
    forall t | 0 <= t < |d.asked| ensures HasOneFate(d, pending - calls, None, t) {
      assert HasOneFate(c, pending, None, t);
    }
  }

  lemma DropSettles(c: Channels, listening: bool)
    requires Settled(c, map[], None)
    ensures Settled(SendWaiting(c, Dropped).(listening := listening), map[], None)
  {
    var d := SendWaiting(c, Dropped).(listening := listening);
    forall t | 0 <= t < |d.asked| ensures HasOneFate(d, map[], None, t) {
      assert HasOneFate(c, map[], None, t);
    }
  }

  // ---------------------------------------------------------------- deferred actions

  /** Open actions have pairwise distinct digests, and none that was decided. */
  predicate Deferrals(open: map<string, Request>, decisions: map<Digest, bool>) {
    && (forall a, b :: a in open && b in open && a != b ==> open[a].digest != open[b].digest)
    && (forall a :: a in open ==> open[a].digest !in decisions)
  }

  lemma DeferKeeps(s: Desk, r: Request, now: nat)
    requires Settled(s.channels, s.pending, Some(r.ticket)) && IsAsked(s.channels, r)
    requires Deferrals(s.open, s.decisions)
    ensures var t := Defer(s, r, now);
            && Settled(t.channels, s.pending, None) && Deferrals(t.open, t.decisions)
            && t == s.(open := t.open, channels := t.channels)
  {
    AnswerHeld(s.channels, s.pending, r.ticket, Sent(DeferDecision(s, r.digest, now)));
  }

  lemma {:induction false} DeferParkedKeeps(s: Desk, visits: seq<Visit>)
    requires Settled(s.channels, s.pending, None) && Deferrals(s.open, s.decisions)
    ensures var t := DeferParked(s, visits);
            && Settled(t.channels, t.pending, None) && Deferrals(t.open, t.decisions)
            && t == s.(pending := t.pending, open := t.open, channels := t.channels)
            && t.channels == s.channels.(answers := t.channels.answers)
            && t.pending.Keys == s.pending.Keys - (set i | 0 <= i < |visits| :: visits[i].callId)
    decreases |visits|
  {
    if visits != [] {
      var call, rest := visits[0].callId, visits[1..];
      assert (set i | 0 <= i < |visits| :: visits[i].callId) ==
             {call} + (set i | 0 <= i < |rest| :: rest[i].callId) by {
        assert forall i :: 0 < i < |visits| ==> visits[i] == rest[i - 1];
      }
      if call in s.pending {
        Unpark(s.channels, s.pending, call);
        var u := s.(pending := s.pending - {call});
        DeferKeeps(u, s.pending[call], visits[0].now);
        DeferParkedKeeps(Defer(u, s.pending[call], visits[0].now), rest);
      } else {
        DeferParkedKeeps(s, rest);
      }
    }
  }

  // ---------------------------------------------------------------- selections

  lemma {:induction false} DedupIsExact(ids: seq<string>)
    ensures Distinct(Dedup(ids)) && (ids != [] ==> Dedup(ids) != [])
    ensures forall id :: id in Dedup(ids) <==> id in ids
  {
    if ids != [] {
      DedupIsExact(ids[..|ids| - 1]);
      assert ids == ids[..|ids| - 1] + [ids[|ids| - 1]];
    }
  }

  lemma {:induction false} FirstUnknownIsExact(requested: seq<string>, known: seq<string>)
    ensures FirstUnknown(requested, known).None? <==> forall i :: 0 <= i < |requested| ==> requested[i] in known
    ensures FirstUnknown(requested, known).Some? ==>
              FirstUnknown(requested, known).value in requested && FirstUnknown(requested, known).value !in known
  {
    if requested != [] {
      FirstUnknownIsExact(requested[1..], known);
      assert forall i :: 0 < i < |requested| ==> requested[i] == requested[1..][i - 1];
    }
  }

  /** A decision is accepted exactly when the call is parked and a selection, if any, allows at least
      one hunk, only once, and only hunks of that call. */
  lemma AcceptedExactly(s: Desk, callId: string, allow: bool, always: bool, hunks: Option<seq<string>>)
    ensures CheckResolve(s, callId, allow, always, hunks).None? <==>
            && callId in s.pending
            && (hunks.Some? ==>
                  && allow && !always && hunks.value != []
                  && forall i :: 0 <= i < |hunks.value| ==> hunks.value[i] in s.pending[callId].hunkIds)
  {
    if hunks.Some? && callId in s.pending {
      FirstUnknownIsExact(hunks.value, s.pending[callId].hunkIds);
      assert hunks.value != [] ==> hunks.value[0] in hunks.value;
    }
  }

  /** A refused decision changes nothing, and only a refused one. */
  lemma RefusedChangesNothing(s: Desk, callId: string, allow: bool, always: bool, hunks: Option<seq<string>>)
    ensures ResolveDecision(s, callId, allow, always, hunks) == s <==> CheckResolve(s, callId, allow, always, hunks).Some?
  {
    if CheckResolve(s, callId, allow, always, hunks).None? {
      assert callId !in ResolveDecision(s, callId, allow, always, hunks).pending;
    }
  }

  // ---------------------------------------------------------------- every step keeps the invariant

  predicate Inv(s: Desk) {
    && Settled(s.channels, s.pending, None)
    && Deferrals(s.open, s.decisions)
    && (!s.attended ==> s.pending == map[])
    && forall call :: call in s.pending ==> RequiresApproval(s.mode, s.pending[call].name)
  }

  lemma HandleKeepsInv(s: Desk, r: Request, now: nat)
    requires Settled(s.channels, s.pending, Some(r.ticket)) && IsAsked(s.channels, r)
    requires Deferrals(s.open, s.decisions) && (!s.attended ==> s.pending == map[])
    requires forall call :: call in s.pending ==> RequiresApproval(s.mode, s.pending[call].name)
    ensures Inv(Handle(s, r, now))
  {
    if r.name in s.approvedTools || !RequiresApproval(s.mode, r.name) {
      AnswerHeld(s.channels, s.pending, r.ticket, Sent(ALLOW_ALL));
    } else if !s.attended {
      DeferKeeps(s, r, now);
    } else if r.callId in s.pending {
      Unseat(s.channels, s.pending, r);
      ParkHeld(Send(s.channels, s.pending[r.callId].ticket, Dropped), s.pending - {r.callId}, r);
      assert s.pending[r.callId := r] == (s.pending - {r.callId})[r.callId := r];
    } else {
      ParkHeld(s.channels, s.pending, r);
    }
  }

  lemma HandleFirstKeepsInv(s: Desk, now: nat)
    requires Inv(s)
    ensures Inv(HandleFirst(s, now))
  {
    if s.channels.listening && s.channels.waiting != [] {
      TakeWaiting(s.channels, s.pending);
      HandleKeepsInv(s.(channels := s.channels.(waiting := s.channels.waiting[1..])), s.channels.waiting[0], now);
    }
  }

  lemma AttendKeepsInv(s: Desk, attended: bool, visits: seq<Visit>)
    requires Inv(s)
    ensures Inv(Attend(s, attended, visits))
  {
    if !attended && VisitsEach(visits, s.pending) {
      DeferParkedKeeps(s.(attended := false), visits);
      assert DeferParked(s.(attended := false), visits).pending == map[];
    }
  }

  lemma ResolveKeepsInv(s: Desk, callId: string, allow: bool, always: bool, hunks: Option<seq<string>>)
    requires Inv(s)
    ensures Inv(ResolveDecision(s, callId, allow, always, hunks))
  {
    if CheckResolve(s, callId, allow, always, hunks).None? {
      AcceptedExactly(s, callId, allow, always, hunks);
      Unpark(s.channels, s.pending, callId);
      if hunks.Some? {
        DedupIsExact(hunks.value);
        assert forall i :: 0 <= i < |Dedup(hunks.value)| ==> Dedup(hunks.value)[i] in Dedup(hunks.value);
      }
      AnswerHeld(s.channels, s.pending - {callId}, s.pending[callId].ticket, Sent(Decision(allow, Chosen(hunks), None)));
    }
  }

  lemma ResetKeepsInv(s: Desk, listening: bool)
    requires Inv(s)
    ensures Inv(ResetChannels(s, listening))
  {
    FreeSettles(s.channels, s.pending, s.pending.Keys, Dropped);
    assert s.pending - s.pending.Keys == map[];
    DropSettles(SendParked(s.channels, s.pending, s.pending.Keys, Dropped), listening);
  }

  lemma AskKeepsInv(s: Desk, callId: string, name: string, hunkIds: seq<string>, digest: Digest)
    requires Inv(s)
    ensures Inv(AskApproval(s, callId, name, hunkIds, digest))
  {
    var r := Request(|s.channels.asked|, callId, name, hunkIds, digest);
    if s.channels.listening {
      AskQueued(s.channels, s.pending, r);
    } else {
      AskDropped(s.channels, s.pending, r);
    }
  }

  lemma StepKeepsInv(s: Desk, l: Label)
    requires Inv(s)
    ensures Inv(Apply(s, l))
  {
    match l
    case Ask(callId, name, hunkIds, digest) => AskKeepsInv(s, callId, name, hunkIds, digest);
    case HandleNext(now) => HandleFirstKeepsInv(s, now);
    case SetAttended(attended, visits) => AttendKeepsInv(s, attended, visits);
    case SetMode(mode) => FreeSettles(s.channels, s.pending, Freed(s.pending, mode), Sent(ALLOW_ALL));
    case Resolve(callId, allow, always, hunks) => ResolveKeepsInv(s, callId, allow, always, hunks);
    case DecideAction(_, _) =>
    case Reset(listening) => ResetKeepsInv(s, listening);
  }

  lemma {:induction false} RunKeepsInv(labels: seq<Label>)
    ensures Inv(Run(INITIAL, labels))
  {
    if labels != [] {
      RunKeepsInv(labels[..|labels| - 1]);
      StepKeepsInv(Run(INITIAL, labels[..|labels| - 1]), labels[|labels| - 1]);
    }
  }

  // ---------------------------------------------------------------- over every run

  /** Every request is in exactly one place: waiting, parked, or answered once, by a decision or by the
      end of its sender. */
  lemma EachRequestHasOneFate(labels: seq<Label>, ticket: nat)
    ensures var s := Run(INITIAL, labels);
            ticket < |s.channels.asked| ==>
              && |s.channels.answers| == |s.channels.asked|
              && match |s.channels.answers[ticket]|
                 case 0 => Waits(s.channels, ticket) != Parked(s.channels, s.pending, ticket)
                 case 1 => !Waits(s.channels, ticket) && !Parked(s.channels, s.pending, ticket)
                 case _ => false
  {
    RunKeepsInv(labels);
    var s := Run(INITIAL, labels);
    assert ticket < |s.channels.asked| ==> HasOneFate(s.channels, s.pending, None, ticket);
  }

  /** Nothing is parked unwatched, and what is parked still needs approval in the mode there is. */
  lemma ParkedIsWatchedAndGated(labels: seq<Label>, call: string)
    ensures var s := Run(INITIAL, labels);
            call in s.pending ==>
              s.attended && s.pending[call].callId == call && RequiresApproval(s.mode, s.pending[call].name)
  {
    RunKeepsInv(labels);
  }

  /** A selection the worker is sent allows some hunks of its own call, each named once. */
  lemma SelectionsAreHonest(labels: seq<Label>, ticket: nat, decision: Decision)
    requires ticket < |Run(INITIAL, labels).channels.answers|
    requires Run(INITIAL, labels).channels.answers[ticket] == [Sent(decision)] && decision.hunks.Some?
    ensures ticket < |Run(INITIAL, labels).channels.asked|
    ensures decision.allow && decision.hunks.value != [] && Distinct(decision.hunks.value)
    ensures forall i :: 0 <= i < |decision.hunks.value| ==>
              decision.hunks.value[i] in Run(INITIAL, labels).channels.asked[ticket].hunkIds
  {
    RunKeepsInv(labels);
    var s := Run(INITIAL, labels);
    assert HasOneFate(s.channels, s.pending, None, ticket);
  }

  lemma OpenActionsStayApart(labels: seq<Label>)
    ensures Deferrals(Run(INITIAL, labels).open, Run(INITIAL, labels).decisions)
  {
    RunKeepsInv(labels);
  }

  // ---------------------------------------------------------------- what is final

  predicate Extends(s: Desk, t: Desk) {
    && (forall d :: d in s.decisions ==> d in t.decisions && t.decisions[d] == s.decisions[d])
    && |s.channels.asked| <= |t.channels.asked| && |s.channels.answers| <= |t.channels.answers|
    && (forall i :: 0 <= i < |s.channels.asked| ==> t.channels.asked[i] == s.channels.asked[i])
    && (forall i :: 0 <= i < |s.channels.answers| ==> s.channels.answers[i] <= t.channels.answers[i])
  }

  lemma {:induction false} DeferParkedExtends(s: Desk, visits: seq<Visit>)
    ensures Extends(s, DeferParked(s, visits))
    decreases |visits|
  {
    if visits != [] {
      var call := visits[0].callId;
      if call in s.pending {
        DeferParkedExtends(Defer(s.(pending := s.pending - {call}), s.pending[call], visits[0].now), visits[1..]);
      } else {
        DeferParkedExtends(s, visits[1..]);
      }
    }
  }

  lemma HandleExtends(s: Desk, r: Request, now: nat)
    ensures Extends(s, Handle(s, r, now))
  {
  }

  lemma FreeExtends(s: Desk, mode: ApprovalMode)
    ensures Extends(s, SwitchMode(s, mode))
  {
  }

  lemma ResetExtends(s: Desk, listening: bool)
    ensures Extends(s, ResetChannels(s, listening))
  {
  }

  lemma ResolveExtends(s: Desk, callId: string, allow: bool, always: bool, hunks: Option<seq<string>>)
    ensures Extends(s, ResolveDecision(s, callId, allow, always, hunks))
  {
  }

  lemma StepExtends(s: Desk, l: Label)
    requires Inv(s)
    ensures Extends(s, Apply(s, l))
  {
    match l
    case Ask(_, _, _, _) =>
    case HandleNext(now) =>
      if s.channels.listening && s.channels.waiting != [] {
        HandleExtends(s.(channels := s.channels.(waiting := s.channels.waiting[1..])), s.channels.waiting[0], now);
      }
    case SetAttended(_, visits) => DeferParkedExtends(s.(attended := false), visits);
    case SetMode(mode) => FreeExtends(s, mode);
    case Resolve(callId, allow, always, hunks) => ResolveExtends(s, callId, allow, always, hunks);
    case DecideAction(_, _) =>
    case Reset(listening) => ResetExtends(s, listening);
  }

  /** However a run goes on, what was decided stays decided and what was answered stays answered. */
  lemma {:induction false} DecisionsAreFinal(labels: seq<Label>, more: seq<Label>)
    ensures Extends(Run(INITIAL, labels), Run(INITIAL, labels + more))
    decreases |more|
  {
    if more == [] {
      assert labels + more == labels;
    } else {
      var init := more[..|more| - 1];
      DecisionsAreFinal(labels, init);
      RunKeepsInv(labels + init);
      StepExtends(Run(INITIAL, labels + init), more[|more| - 1]);
      assert (labels + more)[..|labels + more| - 1] == labels + init;
      ExtendsFurther(Run(INITIAL, labels), Run(INITIAL, labels + init), Run(INITIAL, labels + more));
    }
  }

  lemma ExtendsFurther(s: Desk, t: Desk, u: Desk)
    requires Extends(s, t) && Extends(t, u)
    ensures Extends(s, u)
  {
  }

  // ---------------------------------------------------------------- who may run

  /** Why a call may run: the tool is allowed, the user said so, or an identical call was approved. */
  predicate MayAllow(s: Desk, l: Label, r: Request) {
    match l
    case HandleNext(_) =>
      r.name in s.approvedTools || !RequiresApproval(s.mode, r.name) ||
      (!s.attended && r.digest in s.decisions && s.decisions[r.digest])
    case SetAttended(attended, _) => !attended && r.digest in s.decisions && s.decisions[r.digest]
    case SetMode(mode) => !RequiresApproval(mode, r.name)
    case Resolve(callId, allow, _, _) => allow && callId == r.callId && callId in s.pending && s.pending[callId] == r
    case _ => false
  }

  predicate Allowed(answer: seq<Outcome>) {
    answer != [] && answer[0].Sent? && answer[0].decision.allow
  }

  /** The answers a step added to. */
  predicate Changes(c: Channels, d: Channels, ticket: nat)
    requires ticket < |c.answers|
  {
    ticket < |d.answers| && !Allowed(c.answers[ticket]) && Allowed(d.answers[ticket])
  }

  lemma {:induction false} DeferParkedAllows(s: Desk, visits: seq<Visit>, ticket: nat)
    requires Settled(s.channels, s.pending, None) && Deferrals(s.open, s.decisions)
    requires ticket < |s.channels.asked| && Changes(s.channels, DeferParked(s, visits).channels, ticket)
    ensures var r := s.channels.asked[ticket]; r.digest in s.decisions && s.decisions[r.digest]
    decreases |visits|
  {
    if visits != [] {
      var call, rest := visits[0].callId, visits[1..];
      if call in s.pending {
        Unpark(s.channels, s.pending, call);
        var u := s.(pending := s.pending - {call});
        var t := Defer(u, s.pending[call], visits[0].now);
        DeferKeeps(u, s.pending[call], visits[0].now);
        assert HasOneFate(u.channels, u.pending, Some(s.pending[call].ticket), s.pending[call].ticket);
        if !Allowed(t.channels.answers[ticket]) {
          DeferParkedAllows(t, rest, ticket);
        }
      } else {
        DeferParkedAllows(s, rest, ticket);
      }
    }
  }

  lemma HandleAllows(s: Desk, now: nat, ticket: nat)
    requires Inv(s) && ticket < |s.channels.asked| && Changes(s.channels, HandleFirst(s, now).channels, ticket)
    ensures MayAllow(s, HandleNext(now), s.channels.asked[ticket])
  {
    assert HasOneFate(s.channels, s.pending, None, ticket);
    assert IsAsked(s.channels, s.channels.waiting[0]);
    assert ticket == s.channels.waiting[0].ticket;
  }

  lemma ResolveAllows(s: Desk, l: Label, ticket: nat)
    requires Inv(s) && l.Resolve? && ticket < |s.channels.asked| && Changes(s.channels, Apply(s, l).channels, ticket)
    ensures MayAllow(s, l, s.channels.asked[ticket])
  {
    assert HasOneFate(s.channels, s.pending, None, ticket);
    assert IsAsked(s.channels, s.pending[l.callId]);
  }

  lemma StepAllows(s: Desk, l: Label, ticket: nat)
    requires Inv(s) && ticket < |s.channels.asked| && Changes(s.channels, Apply(s, l).channels, ticket)
    ensures MayAllow(s, l, s.channels.asked[ticket])
  {
    assert HasOneFate(s.channels, s.pending, None, ticket);
    match l
    case HandleNext(now) => HandleAllows(s, now, ticket);
    case SetAttended(_, visits) => DeferParkedAllows(s.(attended := false), visits, ticket);
    case Resolve(_, _, _, _) => ResolveAllows(s, l, ticket);
    case _ =>
  }

  /** Step `i` of the run is the one that allowed the ticket's call. */
  ghost predicate AllowsAt(labels: seq<Label>, i: nat, ticket: nat) {
    && i < |labels| && ticket < |Run(INITIAL, labels[..i]).channels.answers|
    && Changes(Run(INITIAL, labels[..i]).channels, Run(INITIAL, labels[..i + 1]).channels, ticket)
  }

  /** In every run, a call that may run was allowed by a step that had a reason to, when it took it. */
  lemma {:induction false} AllowedForAReason(labels: seq<Label>, ticket: nat) returns (i: nat)
    requires ticket < |Run(INITIAL, labels).channels.answers| && Allowed(Run(INITIAL, labels).channels.answers[ticket])
    requires ticket < |Run(INITIAL, labels).channels.asked|
    ensures AllowsAt(labels, i, ticket)
    ensures MayAllow(Run(INITIAL, labels[..i]), labels[i], Run(INITIAL, labels).channels.asked[ticket])
  {
    var last := |labels| - 1;
    var s := Run(INITIAL, labels[..last]);
    RunKeepsInv(labels[..last]);
    StepExtends(s, labels[last]);
    if ticket >= |s.channels.asked| {
      AskedAreNotAllowed(s, labels[last], ticket);
    }
    if Allowed(s.channels.answers[ticket]) {
      i := AllowedForAReason(labels[..last], ticket);
      assert labels[..last][..i] == labels[..i] && labels[..last][..i + 1] == labels[..i + 1];
    } else {
      StepAllows(s, labels[last], ticket);
      i := last;
      assert labels[..last + 1] == labels;
    }
  }

  lemma AskedAreNotAllowed(s: Desk, l: Label, ticket: nat)
    requires Inv(s) && |s.channels.asked| <= ticket < |Apply(s, l).channels.asked|
    requires ticket < |Apply(s, l).channels.answers|
    ensures !Allowed(Apply(s, l).channels.answers[ticket])
  {
    if l.SetAttended? && !l.attended && VisitsEach(l.visits, s.pending) {
      DeferParkedKeeps(s.(attended := false), l.visits);
    }
  }

  lemma {:induction false} DeferParkedDecidesNothing(s: Desk, visits: seq<Visit>)
    ensures DeferParked(s, visits).decisions == s.decisions
    decreases |visits|
  {
    if visits != [] {
      var call := visits[0].callId;
      if call in s.pending {
        DeferParkedDecidesNothing(Defer(s.(pending := s.pending - {call}), s.pending[call], visits[0].now), visits[1..]);
      } else {
        DeferParkedDecidesNothing(s, visits[1..]);
      }
    }
  }

  /** A recorded decision is what the user said of an open action of that call. */
  lemma {:induction false} DecidedByTheUser(labels: seq<Label>, digest: Digest)
    requires digest in Run(INITIAL, labels).decisions
    ensures exists i, id ::
              0 <= i < |labels| && labels[i] == DecideAction(id, Run(INITIAL, labels).decisions[digest]) &&
              id in Run(INITIAL, labels[..i]).open && Run(INITIAL, labels[..i]).open[id].digest == digest
  {
    if labels != [] {
      var last := |labels| - 1;
      var s, l := Run(INITIAL, labels[..last]), labels[last];
      RunKeepsInv(labels[..last]);
      DecidesOnly(s, l, digest);
      if digest in s.decisions {
        DecidedByTheUser(labels[..last], digest);
        var i, id :|
          0 <= i < last && labels[..last][i] == DecideAction(id, s.decisions[digest]) &&
          id in Run(INITIAL, labels[..last][..i]).open && Run(INITIAL, labels[..last][..i]).open[id].digest == digest;
        assert labels[..last][..i] == labels[..i];
        assert labels[i] == DecideAction(id, Run(INITIAL, labels).decisions[digest]);
      } else {
        assert labels[last] == DecideAction(l.id, Run(INITIAL, labels).decisions[digest]);
      }
    }
  }

  lemma DecidesOnly(s: Desk, l: Label, digest: Digest)
    requires Inv(s) && digest in Apply(s, l).decisions
    ensures digest in s.decisions ==> Apply(s, l).decisions[digest] == s.decisions[digest]
    ensures digest !in s.decisions ==>
              l.DecideAction? && l.id in s.open && s.open[l.id].digest == digest && Apply(s, l).decisions[digest] == l.allow
  {
    if l.SetAttended? {
      DeferParkedDecidesNothing(s.(attended := false), l.visits);
    }
  }

  // ---------------------------------------------------------------- actions by name

  /** Two actions share an id exactly when they arise in the same millisecond and their digests start
      alike. */
  lemma ActionIdExact(t: nat, d: Digest, u: nat, e: Digest)
    ensures ActionId(t, d) == ActionId(u, e) <==> t == u && d[..8] == e[..8]
  {
    var a, b := "act-" + Decimal(t), "act-" + Decimal(u);
    if ActionId(t, d) == ActionId(u, e) {
      assert ActionId(t, d) == a + ("-" + d[..8]) && ActionId(u, e) == b + ("-" + e[..8]);
      SameTail(a, "-" + d[..8], b, "-" + e[..8]);
      assert d[..8] == ("-" + d[..8])[1..] && e[..8] == ("-" + e[..8])[1..];
      assert Decimal(t) == a[4..] && Decimal(u) == b[4..];
      DecimalInjective(t, u);
    }
  }

  lemma SameTail(a: string, x: string, b: string, y: string)
    requires |x| == |y| && a + x == b + y
    ensures a == b && x == y
  {
    assert |a| == |b|;
    assert a == (a + x)[..|a|] && b == (b + y)[..|b|];
    assert x == (a + x)[|a|..] && y == (b + y)[|b|..];
  }

  /** Deferring a call forgets an open action exactly when a new action takes its id. */
  lemma DeferForgetsExactly(s: Desk, r: Request, now: nat)
    ensures (exists id :: id in s.open && (id !in Defer(s, r, now).open || Defer(s, r, now).open[id] != s.open[id])) <==>
            r.digest !in s.decisions && OpenWith(s.open, r.digest).None? && ActionId(now, r.digest) in s.open
  {
    var id := ActionId(now, r.digest);
    if r.digest !in s.decisions && OpenWith(s.open, r.digest).None? && id in s.open {
      assert s.open[id].digest != r.digest && Defer(s, r, now).open[id] == r;
    }
  }

  /** The answer to a deferred call names an open action for that very call, or repeats its decision. */
  lemma DeferredNamesItsAction(s: Desk, r: Request, now: nat)
    ensures var d := DeferDecision(s, r.digest, now);
            if r.digest in s.decisions then d == Decision(s.decisions[r.digest], None, None)
            else
              && !d.allow && d.deferred.Some? && d.deferred.value in Defer(s, r, now).open
              && Defer(s, r, now).open[d.deferred.value].digest == r.digest
  {
  }

  // ---------------------------------------------------------------- what each call settles

  /** A new mode frees exactly the parked calls it does not gate, and allows each. */
  lemma SwitchFreesExactly(s: Desk, mode: ApprovalMode, call: string)
    requires Inv(s) && call in s.pending
    ensures SwitchMode(s, mode).mode == mode
    ensures call in SwitchMode(s, mode).pending <==> RequiresApproval(mode, s.pending[call].name)
    ensures SwitchMode(s, mode).channels.answers[s.pending[call].ticket] ==
            if RequiresApproval(mode, s.pending[call].name) then [] else [Sent(ALLOW_ALL)]
  {
    var ticket := s.pending[call].ticket;
    assert HasOneFate(s.channels, s.pending, None, ticket) && Parked(s.channels, s.pending, ticket);
  }

  /** An accepted decision reaches the worker as the user made it: once, with that allow, without a
      selection exactly if none was made, and otherwise with the ids that were named. The tool is allowed
      for good exactly if the user said so. */
  lemma DecisionIsDelivered(s: Desk, callId: string, allow: bool, always: bool, hunks: Option<seq<string>>)
    requires Inv(s) && callId in s.pending
    requires hunks.Some? ==> allow && !always && hunks.value != []
    requires hunks.Some? ==> forall i :: 0 <= i < |hunks.value| ==> hunks.value[i] in s.pending[callId].hunkIds
    ensures var t, r := ResolveDecision(s, callId, allow, always, hunks), s.pending[callId];
            && t.pending == s.pending - {callId}
            && t.approvedTools == s.approvedTools + (if allow && always then {r.name} else {})
            && |t.channels.answers[r.ticket]| == 1 && t.channels.answers[r.ticket][0].Sent?
            && var d := t.channels.answers[r.ticket][0].decision;
               && d.allow == allow && d.deferred == None && (d.hunks.None? <==> hunks.None?)
               && (hunks.Some? ==> Distinct(d.hunks.value) && forall id :: id in d.hunks.value <==> id in hunks.value)
  {
    AcceptedExactly(s, callId, allow, always, hunks);
    var r := s.pending[callId];
    assert HasOneFate(s.channels, s.pending, None, r.ticket) && Parked(s.channels, s.pending, r.ticket);
    if hunks.Some? {
      DedupIsExact(hunks.value);
    }
  }

  /** While the core listens, a request waits with everything it was asked with; otherwise it is dropped. */
  lemma AskedIsWaiting(s: Desk, callId: string, name: string, hunkIds: seq<string>, digest: Digest)
    requires Inv(s)
    ensures var t, n := AskApproval(s, callId, name, hunkIds, digest), |s.channels.asked|;
            && |t.channels.asked| == n + 1 && |t.channels.answers| == n + 1
            && t.channels.asked[n] == Request(n, callId, name, hunkIds, digest)
            && (if s.channels.listening then t.channels.waiting == s.channels.waiting + [t.channels.asked[n]] && t.channels.answers[n] == []
                else t.channels.waiting == [] && t.channels.answers[n] == [Dropped])
  {
  }

  /** A request that is taken up is answered at once exactly if it need not wait for the user: allowed for
      an allowed tool, a mode that does not ask or a call approved before, and otherwise refused or
      deferred because nobody watches. A parked one ends the wait of another under its call id. */
  lemma TakenUpExactly(s: Desk, now: nat)
    requires Inv(s) && s.channels.listening && s.channels.waiting != []
    ensures var t, r := HandleFirst(s, now), s.channels.waiting[0];
            && r.ticket < |t.channels.answers| && t.channels.waiting == s.channels.waiting[1..]
            && (t.channels.answers[r.ticket] == [] <==>
                s.attended && r.name !in s.approvedTools && RequiresApproval(s.mode, r.name))
            && (Allowed(t.channels.answers[r.ticket]) <==>
                || r.name in s.approvedTools || !RequiresApproval(s.mode, r.name)
                || (!s.attended && r.digest in s.decisions && s.decisions[r.digest]))
            && (t.channels.answers[r.ticket] == [] ==>
                  && t.pending == s.pending[r.callId := r]
                  && (r.callId in s.pending ==> t.channels.answers[s.pending[r.callId].ticket] == [Dropped]))
  {
    var r := s.channels.waiting[0];
    TakeWaiting(s.channels, s.pending);
    assert HasOneFate(s.channels, s.pending, None, r.ticket) && Waits(s.channels, r.ticket);
    if r.callId in s.pending {
      var seated := s.pending[r.callId].ticket;
      assert HasOneFate(s.channels, s.pending, None, seated) && Parked(s.channels, s.pending, seated);
    }
  }

  /** Deciding an open action records exactly that decision for its calls and closes it. */
  lemma DecideExactly(s: Desk, id: string, allow: bool)
    requires Inv(s)
    ensures var t := Decide(s, id, allow);
            if id in s.open
            then t.decisions == s.decisions[s.open[id].digest := allow] && s.open[id].digest !in s.decisions && t.open == s.open - {id}
            else t == s
    ensures Decide(s, id, allow).channels == s.channels && Decide(s, id, allow).pending == s.pending
  {
  }

  /** When a turn stops, every request that waits or is parked loses its sender, and no other. */
  lemma ResetDropsExactly(s: Desk, listening: bool, ticket: nat)
    requires Inv(s) && ticket < |s.channels.asked|
    ensures var t := ResetChannels(s, listening);
            && t.pending == map[] && t.channels.waiting == [] && t.channels.listening == listening
            && |t.channels.answers| == |s.channels.answers|
            && t.channels.answers[ticket] == if s.channels.answers[ticket] == [] then [Dropped] else s.channels.answers[ticket]
  {
    assert HasOneFate(s.channels, s.pending, None, ticket);
  }

  /** Which tools each mode asks for. */
  lemma PolicyTable(name: string)
    ensures !RequiresApproval(FullAccess, name)
    ensures forall mode :: mode in {AutoEdit, Auto} ==>
              (RequiresApproval(mode, name) <==>
               "mcp__" <= name || name in {"bash", "execute", "exec_command", "shell_command", "write_stdin"})
    ensures forall mode :: mode in {Manual, Plan} ==>
              (RequiresApproval(mode, name) <==>
               "mcp__" <= name ||
               name in {"bash", "execute", "exec_command", "shell_command", "write_stdin", "hashline_edit", "str_replace",
                        "edit", "write", "apply_patch", "generate_image", "web_fetch", "web_search"})
  {
  }

  lemma {:induction false} DeferParkedAnswers(s: Desk, visits: seq<Visit>, ticket: nat)
    requires Settled(s.channels, s.pending, None) && Deferrals(s.open, s.decisions)
    requires ticket < |s.channels.asked| && Parked(s.channels, s.pending, ticket)
    requires s.channels.asked[ticket].callId !in DeferParked(s, visits).pending
    ensures var t, digest := DeferParked(s, visits), s.channels.asked[ticket].digest;
            && |t.channels.answers| == |s.channels.asked| && |t.channels.answers[ticket]| == 1 && t.channels.answers[ticket][0].Sent?
            && var d := t.channels.answers[ticket][0].decision;
               if digest in s.decisions then d == Decision(s.decisions[digest], None, None)
               else !d.allow && d.hunks == None && d.deferred.Some?
    decreases |visits|
  {
    if visits != [] {
      var call, rest := visits[0].callId, visits[1..];
      if call in s.pending {
        Unpark(s.channels, s.pending, call);
        var u, r := s.(pending := s.pending - {call}), s.pending[call];
        var t := Defer(u, r, visits[0].now);
        DeferKeeps(u, r, visits[0].now);
        assert HasOneFate(u.channels, u.pending, Some(r.ticket), r.ticket);
        if r.ticket == ticket {
          DeferParkedKeeps(t, rest);
          DeferParkedExtends(t, rest);
          assert t.channels.answers[ticket] <= DeferParked(t, rest).channels.answers[ticket];
          assert HasOneFate(DeferParked(t, rest).channels, DeferParked(t, rest).pending, None, ticket);
        } else {
          DeferParkedAnswers(t, rest, ticket);
        }
      } else {
        DeferParkedAnswers(s, rest, ticket);
      }
    }
  }

  /** When the client leaves, no parked call is left without an answer: each is answered as an identical call
      was decided, or deferred. */
  lemma LeavingBlocksNoCall(s: Desk, visits: seq<Visit>, ticket: nat)
    requires Inv(s) && VisitsEach(visits, s.pending)
    requires ticket < |s.channels.asked| && Parked(s.channels, s.pending, ticket)
    ensures var t, digest := Attend(s, false, visits), s.channels.asked[ticket].digest;
            && !t.attended && |t.channels.answers| == |s.channels.asked| && |t.channels.answers[ticket]| == 1
            && t.channels.answers[ticket][0].Sent?
            && var d := t.channels.answers[ticket][0].decision;
               if digest in s.decisions then d == Decision(s.decisions[digest], None, None)
               else !d.allow && d.hunks == None && d.deferred.Some?
  {
    DeferParkedKeeps(s.(attended := false), visits);
    AttendKeepsInv(s, false, visits);
    DeferParkedAnswers(s.(attended := false), visits, ticket);
  }

  /** Deciding one call answers that call only; allowing its tool for good frees no other parked call. */
  lemma ResolveTouchesOnlyItsCall(s: Desk, callId: string, allow: bool, always: bool, hunks: Option<seq<string>>,
                                  other: string)
    requires Inv(s) && other in s.pending && other != callId
    ensures var t := ResolveDecision(s, callId, allow, always, hunks);
            other in t.pending && t.pending[other] == s.pending[other] && t.channels.answers[s.pending[other].ticket] == []
  {
    assert HasOneFate(s.channels, s.pending, None, s.pending[other].ticket);
    assert Parked(s.channels, s.pending, s.pending[other].ticket);
  }

  /** From the strictest mode to the loosest, fewer tools are asked for. */
  lemma LooserModesAskLess(name: string)
    ensures !RequiresApproval(FullAccess, name)
    ensures RequiresApproval(AutoEdit, name) ==> RequiresApproval(Manual, name)
    ensures RequiresApproval(Auto, name) == RequiresApproval(AutoEdit, name)
    ensures RequiresApproval(Plan, name) == RequiresApproval(Manual, name)
    ensures RequiresApproval(Manual, name) && !RequiresApproval(AutoEdit, name) ==>
              IsEditTool(name) || IsNetworkTool(name) || name == "generate_image"
  {
  }

  // ---------------------------------------------------------------- runs

  lemma RunOneMore(labels: seq<Label>, l: Label)
    ensures Run(INITIAL, labels + [l]) == Apply(Run(INITIAL, labels), l)
  {
    assert (labels + [l])[..|labels|] == labels;
  }

  /** Nobody watches, nothing is allowed beforehand, and these requests wait. */
  predicate Unwatched(s: Desk, waiting: seq<Request>) {
    && s.mode == Manual && !s.attended && s.approvedTools == {} && s.decisions == map[]
    && s.channels.listening && s.channels.waiting == waiting
  }

  lemma LeavesDesk() returns (labels: seq<Label>)
    ensures Unwatched(Run(INITIAL, labels), [])
    ensures var s := Run(INITIAL, labels); s.open == map[] && s.channels.asked == [] && s.channels.answers == []
  {
    RunOneMore([], Reset(true));
    labels := [] + [Reset(true)];
    RunOneMore(labels, SetAttended(false, []));
    labels := labels + [SetAttended(false, [])];
  }

  lemma AsksOne(s: Desk, waiting: seq<Request>, callId: string, digest: Digest) returns (r: Request)
    requires Unwatched(s, waiting)
    ensures var t := Apply(s, Ask(callId, "bash", [], digest));
            && r == Request(|s.channels.asked|, callId, "bash", [], digest) && Unwatched(t, waiting + [r])
            && t.open == s.open && t.channels.asked == s.channels.asked + [r] && t.channels.answers == s.channels.answers + [[]]
  {
    r := Request(|s.channels.asked|, callId, "bash", [], digest);
  }

  /** An unwatched call of a kind that was not seen before becomes an action, under whatever id that gives. */
  lemma DefersFirst(s: Desk, r: Request, rest: seq<Request>, now: nat)
    requires Unwatched(s, [r] + rest) && r.name == "bash" && r.ticket < |s.channels.answers|
    requires forall id :: id in s.open ==> s.open[id].digest != r.digest
    ensures var t, id := Apply(s, HandleNext(now)), ActionId(now, r.digest);
            && Unwatched(t, rest) && t.open == s.open[id := r]
            && t.channels.answers == s.channels.answers[r.ticket := s.channels.answers[r.ticket] + [Sent(Decision(false, None, Some(id)))]]
  {
    assert ([r] + rest)[1..] == rest;
    assert OpenWith(s.open, r.digest).None?;
  }

  /** Two calls deferred in the same millisecond, whose digests start alike: the second's action takes the
      first's id, and the id the first was answered with names the second. */
  lemma ActionIsForgotten(first: Digest, second: Digest, now: nat) returns (before: seq<Label>)
    requires first != second && first[..8] == second[..8]
    ensures var s, t, id := Run(INITIAL, before), Run(INITIAL, before + [HandleNext(now)]), ActionId(now, first);
            && id in s.open && s.open[id].digest == first && |s.channels.answers| == 2
            && s.channels.answers[0] == [Sent(Decision(false, None, Some(id)))]
            && t.open.Keys == {id} && t.open[id].digest == second && first !in t.decisions
  {
    before := LeavesDesk();
    RunOneMore(before, Ask("1", "bash", [], first));
    var one := AsksOne(Run(INITIAL, before), [], "1", first);
    before := before + [Ask("1", "bash", [], first)];
    RunOneMore(before, Ask("2", "bash", [], second));
    var two := AsksOne(Run(INITIAL, before), [one], "2", second);
    before := before + [Ask("2", "bash", [], second)];
    RunOneMore(before, HandleNext(now));
    assert [] + [one] == [one] && [one] + [two] == [one, two];
    DefersFirst(Run(INITIAL, before), one, [two], now);
    before := before + [HandleNext(now)];
    RunOneMore(before, HandleNext(now));
    assert [two] + [] == [two];
    DefersFirst(Run(INITIAL, before), two, [], now);
    ActionIdExact(now, first, now, second);
  }
}
