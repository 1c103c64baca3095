/** The turn's gate and the core's answers together: the decision a gated call gets is what its ticket's
    channel carries in a run of the approval protocol, so for every call that runs there is a reason in
    that run. */
module Gating {
  import opened Common
  import opened PatchFormat
  import opened HunkSelection
  import opened SelectionTheorems
  import opened ApprovalState
  import opened ApprovalTheorems
  import opened TurnSpec
  import opened TurnAnswers
  import TurnTheorems

  // ---------------------------------------------------------------- what the worker hears

  /** The gate's question goes to the core. */
  predicate Sends(call: ToolCall, c: Circumstance) {
    && !(c.planMode && c.refusal.Some?) && c.hook.None? && c.gate != Forbid
    && MustAsk(call.name, c) && !ClassifiedAllow(call.name, c) && c.handler
  }

  /** A channel whose sender is gone reads as a denial. */
  function Heard(outcome: Outcome): Decision {
    match outcome
    case Sent(decision) => decision
    case Dropped => DENY
  }

  /** The request is this call's. */
  predicate IsRequestOf(r: Request, call: ToolCall) {
    r.callId == call.id && r.name == call.name
  }

  /** The ticket was asked for this call and answered, and the worker heard that answer. */
  ghost predicate Hears(call: ToolCall, c: Circumstance, labels: seq<Label>, ticket: nat) {
    var channels := Run(INITIAL, labels).channels;
    && ticket < |channels.asked| && ticket < |channels.answers| && IsRequestOf(channels.asked[ticket], call)
    && channels.answers[ticket] != [] && c.decision == Heard(channels.answers[ticket][0])
  }

  // ---------------------------------------------------------------- reasons, traced to their origin

  /** The user allowed this tool for good at some step. */
  ghost predicate AllowedForGood(labels: seq<Label>, name: string) {
    exists i, callId :: 0 <= i < |labels| && labels[i] == Resolve(callId, true, true, None) &&
      callId in Run(INITIAL, labels[..i]).pending && Run(INITIAL, labels[..i]).pending[callId].name == name
  }

  /** The user approved an open action with this digest at some step. */
  ghost predicate ApprovedAsAction(labels: seq<Label>, digest: Digest) {
    exists i, id :: 0 <= i < |labels| && labels[i] == DecideAction(id, true) &&
      id in Run(INITIAL, labels[..i]).open && Run(INITIAL, labels[..i]).open[id].digest == digest
  }

  /** The step is the user's answer to this very request, while it is parked. */
  predicate IsUsersAnswer(s: Desk, l: Label, r: Request) {
    l.Resolve? && l.allow && l.callId == r.callId && r.callId in s.pending && s.pending[r.callId] == r
  }

  /** The mode that the step finds or sets does not ask for this tool. */
  predicate ModeAllows(s: Desk, l: Label, name: string) {
    !RequiresApproval(if l.SetMode? then l.mode else s.mode, name)
  }

  /** Step `i` has the mode or the user behind it. */
  ghost predicate HasConsent(labels: seq<Label>, i: nat, r: Request)
    requires i < |labels|
  {
    var s := Run(INITIAL, labels[..i]);
    || ModeAllows(s, labels[i], r.name)
    || IsUsersAnswer(s, labels[i], r)
    || AllowedForGood(labels[..i], r.name)
    || ApprovedAsAction(labels[..i], r.digest)
  }

  lemma {:induction false} DeferParkedKeepsTools(s: Desk, visits: seq<Visit>)
    ensures DeferParked(s, visits).approvedTools == s.approvedTools
    decreases |visits|
  {
    if visits != [] {
      var call := visits[0].callId;
      if call in s.pending {
        DeferParkedKeepsTools(Defer(s.(pending := s.pending - {call}), s.pending[call], visits[0].now), visits[1..]);
      } else {
        DeferParkedKeepsTools(s, visits[1..]);
      }
    }
  }

  lemma ToolsGrowByAlways(s: Desk, l: Label, name: string)
    requires name in Apply(s, l).approvedTools && name !in s.approvedTools
    ensures l.Resolve? && l.allow && l.always && l.hunks.None? && l.callId in s.pending && s.pending[l.callId].name == name
  {
    match l
    case SetAttended(_, visits) => DeferParkedKeepsTools(s.(attended := false), visits);
    case Resolve(callId, allow, always, hunks) => AcceptedExactly(s, callId, allow, always, hunks);
    case _ =>
  }

  /** A tool is on the allowlist only because the user put it there. */
  lemma {:induction false} AllowlistIsTheUsers(labels: seq<Label>, name: string)
    requires name in Run(INITIAL, labels).approvedTools
    ensures AllowedForGood(labels, name)
  {
    if labels != [] {
      var last := |labels| - 1;
      var s, l := Run(INITIAL, labels[..last]), labels[last];
      if name in s.approvedTools {
        AllowlistIsTheUsers(labels[..last], name);
        var i, callId :|
          0 <= i < last && labels[..last][i] == Resolve(callId, true, true, None) &&
          callId in Run(INITIAL, labels[..last][..i]).pending && Run(INITIAL, labels[..last][..i]).pending[callId].name == name;
        assert labels[..last][..i] == labels[..i] && labels[i] == Resolve(callId, true, true, None);
      } else {
        ToolsGrowByAlways(s, l, name);
        assert labels[last] == Resolve(l.callId, true, true, None);
      }
    }
  }

  /** Behind every reason to allow there is the mode or the user. */
  lemma ReasonIsConsent(labels: seq<Label>, i: nat, r: Request)
    requires i < |labels| && MayAllow(Run(INITIAL, labels[..i]), labels[i], r)
    ensures HasConsent(labels, i, r)
  {
    var s := Run(INITIAL, labels[..i]);
    if r.name in s.approvedTools {
      AllowlistIsTheUsers(labels[..i], r.name);
    }
    if r.digest in s.decisions && s.decisions[r.digest] {
      DecidedByTheUser(labels[..i], r.digest);
      assert ApprovedAsAction(labels[..i], r.digest);
    }
  }

  // ---------------------------------------------------------------- why a call ran

  /** A call the rules do not forbid is asked about exactly if somebody must be asked and is there. */
  lemma AskedExactly(call: ToolCall, c: Circumstance)
    requires !(c.planMode && c.refusal.Some?) && c.hook.None? && c.gate != Forbid
    ensures Sends(call, c) <==> !NeedNotAsk(call, c)
  {
  }

  /** Nothing forbids the call, and if it was asked about, the step that allowed it had consent. */
  ghost predicate IsJustified(trial: Trial, labels: seq<Label>, ticket: nat) {
    var call, c := trial.call, trial.c;
    && !(c.planMode && c.refusal.Some?) && c.hook.None? && c.gate != Forbid
    && (!NeedNotAsk(call, c) ==>
          ticket < |Run(INITIAL, labels).channels.asked| && IsRequestOf(Run(INITIAL, labels).channels.asked[ticket], call) &&
          exists i: nat :: AllowsAt(labels, i, ticket) && HasConsent(labels, i, Run(INITIAL, labels).channels.asked[ticket]))
  }

  lemma ClearedCallIsJustified(trial: Trial, labels: seq<Label>, ticket: nat)
    requires Route(trial.call, trial.c).Cleared?
    requires Sends(trial.call, trial.c) ==> Hears(trial.call, trial.c, labels, ticket)
    ensures IsJustified(trial, labels, ticket)
  {
    TurnTheorems.RunsExactlyWhenCleared(trial.call, trial.c);
    AskedExactly(trial.call, trial.c);
    if !NeedNotAsk(trial.call, trial.c) {
      var i := AllowedForAReason(labels, ticket);
      ReasonIsConsent(labels, i, Run(INITIAL, labels).channels.asked[ticket]);
    }
  }

  /** Each call of the turn that was asked about heard the answer of a ticket of its own. */
  ghost predicate AreTied(ran: seq<Trial>, labels: seq<Label>, tickets: seq<nat>) {
    && |tickets| == |ran|
    && (forall i, j :: 0 <= i < j < |ran| && Sends(ran[i].call, ran[i].c) && Sends(ran[j].call, ran[j].c) ==> tickets[i] != tickets[j])
    && forall i :: 0 <= i < |ran| && Sends(ran[i].call, ran[i].c) ==> Hears(ran[i].call, ran[i].c, labels, tickets[i])
  }

  predicate AreCleared(ran: seq<Trial>) {
    forall i :: 0 <= i < |ran| ==> Route(ran[i].call, ran[i].c).Cleared?
  }

  lemma StartedAreRouted(calls: seq<ToolCall>, cs: seq<Circumstance>)
    requires |cs| >= |calls|
    ensures AreCleared(Started(calls, cs))
  {
    TurnTheorems.StartedAreCleared(calls, cs);
  }

  lemma AnsweredRunsCleared(cfg: Config, t: Turn, items: seq<OutputItem>, r: Reply)
    requires AreCleared(t.ran)
    ensures AreCleared(Answered(cfg, t, items, r).turn.ran)
  {
    FunctionCallsAreCalls(items);
    var read := Requests(FunctionCalls(items), r.late);
    if read.Ok? && |r.circumstances| >= |read.value| {
      StartedAreRouted(read.value, r.circumstances);
    }
  }

  lemma {:induction false} TurnRunsCleared(cfg: Config, t: Turn, script: seq<Reply>)
    requires AreCleared(t.ran)
    ensures AreCleared(RunTurn(cfg, t, script).turn.ran)
    decreases |script|
  {
    if script != [] {
      var r := script[0];
      if r.answer.Ok? {
        AnsweredRunsCleared(cfg, t.(input := t.input + Users(r.steered), requests := t.requests + 1), r.answer.value, r);
      }
      if OneRequest(cfg, t, r).Going? {
        TurnRunsCleared(cfg, OneRequest(cfg, t, r).turn, script[1..]);
      }
    }
  }

  /** In every run of a turn beside every run of the approvals: a call that was started was not forbidden,
      and if it had to be asked about, the step that allowed its request found the mode not asking for the
      tool, or was the user's answer to that request, or came after the user had allowed the tool for good
      or approved the same call as a deferred action. */
  lemma EveryCallThatRanIsJustified(cfg: Config, conversation: seq<Item>, script: seq<Reply>,
                                    labels: seq<Label>, tickets: seq<nat>, i: nat)
    requires AreTied(RunTurn(cfg, Turn(conversation, 0, 0, 0, [], []), script).turn.ran, labels, tickets) && i < |tickets|
    ensures IsJustified(RunTurn(cfg, Turn(conversation, 0, 0, 0, [], []), script).turn.ran[i], labels, tickets[i])
  {
    TurnRunsCleared(cfg, Turn(conversation, 0, 0, 0, [], []), script);
    ClearedCallIsJustified(RunTurn(cfg, Turn(conversation, 0, 0, 0, [], []), script).turn.ran[i], labels, tickets[i]);
  }

  /** One answer of the user lets one call run: the same step is no answer to another call's request. */
  lemma OneAnswerRunsOneCall(ran: seq<Trial>, labels: seq<Label>, tickets: seq<nat>, i: nat, j: nat, k: nat)
    requires AreTied(ran, labels, tickets) && i < |ran| && j < |ran| && i != j && k < |labels|
    requires Sends(ran[i].call, ran[i].c) && Sends(ran[j].call, ran[j].c)
    requires IsUsersAnswer(Run(INITIAL, labels[..k]), labels[k], Run(INITIAL, labels).channels.asked[tickets[i]])
    ensures !IsUsersAnswer(Run(INITIAL, labels[..k]), labels[k], Run(INITIAL, labels).channels.asked[tickets[j]])
  {
    RunKeepsInv(labels);
    var asked := Run(INITIAL, labels).channels.asked;
    assert Hears(ran[i].call, ran[i].c, labels, tickets[i]) && Hears(ran[j].call, ran[j].c, labels, tickets[j]);
    assert asked[tickets[i]].ticket == tickets[i] && asked[tickets[j]].ticket == tickets[j] && tickets[i] != tickets[j];
  }

  // ---------------------------------------------------------------- a call that is asked about

  /** The request carries the ids of the hunks planned for the call, or none when there is no plan. */
  predicate CarriesHunksOf(r: Request, call: ToolCall, previews: seq<Option<(string, PatchHunk)>>) {
    var plan := PlanHunks(call.name, call.arguments, previews);
    r.hunkIds == if plan.Some? then IdsOf(plan.value) else []
  }

  /** A call that is asked about runs exactly when the answer allows it: a part of it that the user
      chooses can always be split off. */
  lemma AskedCallRunsExactly(call: ToolCall, c: Circumstance, labels: seq<Label>, ticket: nat,
                             previews: seq<Option<(string, PatchHunk)>>)
    requires Sends(call, c) && Hears(call, c, labels, ticket)
    requires CarriesHunksOf(Run(INITIAL, labels).channels.asked[ticket], call, previews)
    ensures Route(call, c).Cleared? <==> c.decision.allow
    ensures c.decision.allow && c.decision.hunks.None? ==> Route(call, c) == Cleared(call, None, c.run)
  {
    TurnTheorems.RunsExactlyWhenCleared(call, c);
    if c.decision.allow && c.decision.hunks.Some? {
      var chosen := c.decision.hunks.value;
      HeardIsAnswer(labels, ticket, c.decision);
      SelectionsAreHonest(labels, ticket, c.decision);
      var approved := set id | id in chosen;
      assert chosen[0] in approved;
      forall id | id in approved ensures id in Run(INITIAL, labels).channels.asked[ticket].hunkIds {
        var k :| 0 <= k < |chosen| && chosen[k] == id;
      }
      PlanShowsCallIds(call.name, call.arguments, previews);
      AcceptedSelection(call.name, call.arguments, approved);
    }
  }

  /** A part of a call that the user names is what runs of it: after a decision that names ids of the parked
      call, the worker runs the call with exactly those hunks applied. */
  lemma NamedHunksAreApplied(call: ToolCall, c: Circumstance, labels: seq<Label>, ticket: nat,
                             previews: seq<Option<(string, PatchHunk)>>, i: nat, ids: seq<string>)
    requires Sends(call, c) && Hears(call, c, labels, ticket)
    requires CarriesHunksOf(Run(INITIAL, labels).channels.asked[ticket], call, previews)
    requires i < |labels| && labels[i] == Resolve(call.id, true, false, Some(ids))
    requires IsUsersAnswer(Run(INITIAL, labels[..i]), labels[i], Run(INITIAL, labels).channels.asked[ticket])
    requires ids != [] && forall k :: 0 <= k < |ids| ==> ids[k] in Run(INITIAL, labels).channels.asked[ticket].hunkIds
    ensures Route(call, c).Cleared? && Route(call, c).partial.Some?
    ensures forall id :: id in Route(call, c).partial.value.applied <==> id in ids
    ensures forall id :: id in Route(call, c).partial.value.rejected <==>
                         id in Run(INITIAL, labels).channels.asked[ticket].hunkIds && id !in ids
  {
    var r := Run(INITIAL, labels).channels.asked[ticket];
    DeliveredToTheEnd(labels, ticket, i, true, false, Some(ids));
    AskedCallRunsExactly(call, c, labels, ticket, previews);
    PlanShowsCallIds(call.name, call.arguments, previews);
    var approved := set id | id in c.decision.hunks.value;
    AcceptedSelection(call.name, call.arguments, approved);
    TurnTheorems.RunsExactlyWhenCleared(call, c);
    assert ids[0] in r.hunkIds;
    var f := EditFiltered(call.name, call.arguments, approved).value;
    assert Partitions(r.hunkIds, f.applied, f.rejected, approved);
    PartsAsSets(r.hunkIds, f.applied, f.rejected, approved);
    assert forall id :: id in approved <==> id in ids;
    assert Route(call, c).partial == Some(Partial(f.applied, f.rejected));
  }

  lemma {:induction false} DistinctOnce(ids: seq<string>, id: string)
    requires Distinct(ids)
    ensures multiset(ids)[id] <= 1
  {
    if ids != [] {
      DistinctOnce(ids[..|ids| - 1], id);
      assert ids == ids[..|ids| - 1] + [ids[|ids| - 1]];
    }
  }

  lemma PartsAsSets(ids: seq<string>, applied: seq<string>, rejected: seq<string>, approved: set<string>)
    requires Partitions(ids, applied, rejected, approved)
    ensures forall id :: id in applied <==> id in approved
    ensures forall id :: id in rejected <==> id in ids && id !in approved
  {
    forall id ensures (id in applied <==> id in approved) && (id in rejected <==> id in ids && id !in approved) {
      DistinctOnce(ids, id);
      assert id in approved <==> id in (set x | x in applied);
      assert multiset(ids)[id] == multiset(applied)[id] + multiset(rejected)[id];
      assert id in ids <==> multiset(ids)[id] > 0;
      assert id in applied <==> multiset(applied)[id] > 0;
      assert id in rejected <==> multiset(rejected)[id] > 0;
    }
  }

  /** What a decision sends is what the channel carries for the rest of the run. */
  lemma DeliveredToTheEnd(labels: seq<Label>, ticket: nat, i: nat, allow: bool, always: bool, hunks: Option<seq<string>>)
    requires ticket < |Run(INITIAL, labels).channels.asked|
    requires i < |labels| && labels[i] == Resolve(Run(INITIAL, labels).channels.asked[ticket].callId, allow, always, hunks)
    requires var s, r := Run(INITIAL, labels[..i]), Run(INITIAL, labels).channels.asked[ticket];
             r.callId in s.pending && s.pending[r.callId] == r
    requires hunks.Some? ==> allow && !always && hunks.value != []
    requires hunks.Some? ==> forall k :: 0 <= k < |hunks.value| ==> hunks.value[k] in Run(INITIAL, labels).channels.asked[ticket].hunkIds
    ensures ticket < |Run(INITIAL, labels).channels.answers|
    ensures var answer := Run(INITIAL, labels).channels.answers[ticket];
            && |answer| == 1 && answer[0].Sent? && answer[0].decision.allow == allow
            && (answer[0].decision.hunks.None? <==> hunks.None?)
            && (hunks.Some? ==> forall id :: id in answer[0].decision.hunks.value <==> id in hunks.value)
  {
    var s, r := Run(INITIAL, labels[..i]), Run(INITIAL, labels).channels.asked[ticket];
    RunKeepsInv(labels[..i]);
    ParkedTicket(labels, i, ticket);
    DecisionIsDelivered(s, r.callId, allow, always, hunks);
    assert labels[..i + 1][..i] == labels[..i];
    AnsweredStays(labels, i + 1, ticket);
  }

  /** A request parked somewhere in the run is the one its ticket was asked with. */
  lemma ParkedTicket(labels: seq<Label>, i: nat, ticket: nat)
    requires i <= |labels| && ticket < |Run(INITIAL, labels).channels.asked|
    requires var s, r := Run(INITIAL, labels[..i]), Run(INITIAL, labels).channels.asked[ticket];
             r.callId in s.pending && s.pending[r.callId] == r
    ensures Run(INITIAL, labels).channels.asked[ticket].ticket == ticket
  {
    RunKeepsInv(labels);
  }

  lemma AnsweredStays(labels: seq<Label>, n: nat, ticket: nat)
    requires n <= |labels| && ticket < |Run(INITIAL, labels[..n]).channels.answers|
    requires |Run(INITIAL, labels[..n]).channels.answers[ticket]| == 1 && ticket < |Run(INITIAL, labels).channels.asked|
    ensures ticket < |Run(INITIAL, labels).channels.answers|
    ensures Run(INITIAL, labels).channels.answers[ticket] == Run(INITIAL, labels[..n]).channels.answers[ticket]
  {
    assert labels[..n] + labels[n..] == labels;
    DecisionsAreFinal(labels[..n], labels[n..]);
    EachRequestHasOneFate(labels, ticket);
  }

  lemma HeardIsAnswer(labels: seq<Label>, ticket: nat, decision: Decision)
    requires ticket < |Run(INITIAL, labels).channels.asked| && ticket < |Run(INITIAL, labels).channels.answers|
    requires Run(INITIAL, labels).channels.answers[ticket] != [] && decision.allow
    requires decision == Heard(Run(INITIAL, labels).channels.answers[ticket][0])
    ensures Run(INITIAL, labels).channels.answers[ticket] == [Sent(decision)]
  {
    EachRequestHasOneFate(labels, ticket);
  }

  // ---------------------------------------------------------------- who is asked

  /** The core would park this request for the user. */
  predicate NeedsUser(s: Desk, r: Request) {
    s.attended && r.name !in s.approvedTools && RequiresApproval(s.mode, r.name)
  }

  /** The step takes up this ticket's request. */
  predicate Takes(s: Desk, l: Label, ticket: nat) {
    l.HandleNext? && s.channels.listening && s.channels.waiting != [] && s.channels.waiting[0].ticket == ticket
  }

  predicate IsParked(s: Desk, ticket: nat) {
    ticket < |s.channels.asked| && Parked(s.channels, s.pending, ticket)
  }

  /** A request is parked when it is taken up exactly if the user is needed. */
  lemma TakenIsParkedExactly(s: Desk, l: Label, ticket: nat)
    requires Inv(s) && Takes(s, l, ticket)
    ensures IsParked(Apply(s, l), ticket) <==> NeedsUser(s, s.channels.waiting[0])
    ensures ticket < |s.channels.asked| && s.channels.asked[ticket] == s.channels.waiting[0]
  {
    TakeWaiting(s.channels, s.pending);
    assert HasOneFate(s.channels, s.pending, None, ticket);
  }

  lemma {:induction false} DeferParkedShrinks(s: Desk, visits: seq<Visit>)
    ensures forall c :: c in DeferParked(s, visits).pending ==> c in s.pending && DeferParked(s, visits).pending[c] == s.pending[c]
    ensures DeferParked(s, visits).channels.asked == s.channels.asked
    decreases |visits|
  {
    if visits != [] {
      var call := visits[0].callId;
      if call in s.pending {
        DeferParkedShrinks(Defer(s.(pending := s.pending - {call}), s.pending[call], visits[0].now), visits[1..]);
      } else {
        DeferParkedShrinks(s, visits[1..]);
      }
    }
  }

  /** Only taking a request up parks it. */
  lemma ParkedByTaking(s: Desk, l: Label, ticket: nat)
    requires Inv(s) && IsParked(Apply(s, l), ticket) && !IsParked(s, ticket)
    ensures Takes(s, l, ticket)
  {
    match l
    case SetAttended(_, visits) => DeferParkedShrinks(s.(attended := false), visits);
    case HandleNext(_) => StepKeepsInv(s, l);
    case _ =>
  }

  /** At some point of the run the request is parked. */
  ghost predicate WasParked(labels: seq<Label>, ticket: nat) {
    exists i :: 0 <= i <= |labels| && IsParked(Run(INITIAL, labels[..i]), ticket)
  }

  /** At some step of the run the request is taken up and the user is needed. */
  ghost predicate WasForTheUser(labels: seq<Label>, ticket: nat) {
    exists i :: 0 <= i < |labels| && IsPutToUser(labels, i, ticket)
  }

  ghost predicate IsPutToUser(labels: seq<Label>, i: nat, ticket: nat)
    requires i < |labels|
  {
    var s := Run(INITIAL, labels[..i]);
    Takes(s, labels[i], ticket) && NeedsUser(s, s.channels.waiting[0])
  }

  lemma {:induction false} ParkedSomewhere(labels: seq<Label>, n: nat, ticket: nat)
    requires n <= |labels| && IsParked(Run(INITIAL, labels[..n]), ticket)
    ensures WasForTheUser(labels, ticket)
  {
    if n > 0 {
      var s, l := Run(INITIAL, labels[..n - 1]), labels[n - 1];
      assert labels[..n][..n - 1] == labels[..n - 1];
      if IsParked(s, ticket) {
        ParkedSomewhere(labels, n - 1, ticket);
      } else {
        RunKeepsInv(labels[..n - 1]);
        ParkedByTaking(s, l, ticket);
        TakenIsParkedExactly(s, l, ticket);
        assert IsPutToUser(labels, n - 1, ticket);
      }
    }
  }

  /** A request reaches the user exactly if, when it is taken up, somebody watches, its tool is not allowed
      for good and the mode asks for it. */
  lemma ReachesTheUserExactly(labels: seq<Label>, ticket: nat)
    ensures WasParked(labels, ticket) <==> WasForTheUser(labels, ticket)
  {
    if WasParked(labels, ticket) {
      var n :| 0 <= n <= |labels| && IsParked(Run(INITIAL, labels[..n]), ticket);
      ParkedSomewhere(labels, n, ticket);
    }
    if WasForTheUser(labels, ticket) {
      var i :| 0 <= i < |labels| && IsPutToUser(labels, i, ticket);
      PutToUserIsParked(labels, i, ticket);
    }
  }

  lemma PutToUserIsParked(labels: seq<Label>, i: nat, ticket: nat)
    requires i < |labels| && IsPutToUser(labels, i, ticket)
    ensures WasParked(labels, ticket)
  {
    RunKeepsInv(labels[..i]);
    TakenIsParkedExactly(Run(INITIAL, labels[..i]), labels[i], ticket);
    assert labels[..i + 1][..i] == labels[..i];
    assert IsParked(Run(INITIAL, labels[..i + 1]), ticket);
  }

  // ---------------------------------------------------------------- a rule that says "ask"

  /** At this step the call's request is taken up, somebody watches, and neither the allowlist nor the mode
      lets the tool run. */
  ghost predicate AsksTheUser(labels: seq<Label>, i: nat, ticket: nat, name: string)
    requires i < |labels|
  {
    var s := Run(INITIAL, labels[..i]);
    Takes(s, labels[i], ticket) && s.attended && name !in s.approvedTools && RequiresApproval(s.mode, name)
  }

  /** The request taken up is the one the ticket was asked with. */
  lemma TakenIsAsked(labels: seq<Label>, i: nat, ticket: nat)
    requires i < |labels| && Takes(Run(INITIAL, labels[..i]), labels[i], ticket)
    ensures ticket < |Run(INITIAL, labels).channels.asked|
    ensures Run(INITIAL, labels[..i]).channels.waiting[0] == Run(INITIAL, labels).channels.asked[ticket]
  {
    RunKeepsInv(labels[..i]);
    TakenIsParkedExactly(Run(INITIAL, labels[..i]), labels[i], ticket);
    DecisionsAreFinal(labels[..i], labels[i..]);
    assert labels[..i] + labels[i..] == labels;
  }

  /** A call under a rule that says "ask" goes to the core whatever the mode and the classifier say. It
      reaches the user exactly if, when its request is taken up, somebody watches, the tool is not allowed
      for good and the mode asks for it. */
  lemma AskRuleReachesTheUserExactly(call: ToolCall, c: Circumstance, labels: seq<Label>, ticket: nat)
    requires c.gate == AskUser && c.handler && c.hook.None? && !(c.planMode && c.refusal.Some?)
    requires Hears(call, c, labels, ticket)
    ensures Sends(call, c)
    ensures WasParked(labels, ticket) <==> exists i :: 0 <= i < |labels| && AsksTheUser(labels, i, ticket, call.name)
  {
    ReachesTheUserExactly(labels, ticket);
    forall i | 0 <= i < |labels| && Takes(Run(INITIAL, labels[..i]), labels[i], ticket)
      ensures IsPutToUser(labels, i, ticket) <==> AsksTheUser(labels, i, ticket, call.name)
    {
      TakenIsAsked(labels, i, ticket);
    }
  }

  /** In full-access mode a call under such a rule runs unasked. */
  lemma AskRuleRunsUnasked(call: ToolCall, c: Circumstance, digest: Digest) returns (labels: seq<Label>)
    requires c.gate == AskUser && c.handler && c.hook.None? && !(c.planMode && c.refusal.Some?)
    requires call.name == "bash" && c.decision == ALLOW_ALL
    ensures Hears(call, c, labels, 0) && !WasParked(labels, 0) && Route(call, c).Cleared?
  {
    RunOneMore([], Reset(true));
    labels := [] + [Reset(true)];
    RunOneMore(labels, SetMode(FullAccess));
    labels := labels + [SetMode(FullAccess)];
    RunOneMore(labels, Ask(call.id, "bash", [], digest));
    labels := labels + [Ask(call.id, "bash", [], digest)];
    RunOneMore(labels, HandleNext(0));
    AllowsInFullAccess(Run(INITIAL, labels), Request(0, call.id, "bash", [], digest));
    labels := labels + [HandleNext(0)];
    NeverForTheUser(labels, call.id, digest);
    ReachesTheUserExactly(labels, 0);
  }

  lemma AllowsInFullAccess(s: Desk, r: Request)
    requires s.mode == FullAccess && s.channels.listening && s.channels.waiting == [r]
    requires r.ticket == 0 && s.channels.asked == [r] && s.channels.answers == [[]]
    ensures var t := Apply(s, HandleNext(0)); t.channels.asked == [r] && t.channels.answers == [[Sent(ALLOW_ALL)]]
  {
    var answers := Apply(s, HandleNext(0)).channels.answers;
    assert s.channels.answers[0] == [] && answers[0] == [] + [Sent(ALLOW_ALL)] == [Sent(ALLOW_ALL)];
    assert answers == [answers[0]];
  }

  lemma NeverForTheUser(labels: seq<Label>, callId: string, digest: Digest)
    requires labels == [Reset(true), SetMode(FullAccess), Ask(callId, "bash", [], digest), HandleNext(0)]
    ensures !WasForTheUser(labels, 0)
  {
    forall i | 0 <= i < |labels| ensures !IsPutToUser(labels, i, 0) {
      if i == 3 {
        RunOneMore([], labels[0]);
        RunOneMore([labels[0]], labels[1]);
        RunOneMore([labels[0], labels[1]], labels[2]);
        assert [] + [labels[0]] == [labels[0]] && [labels[0]] + [labels[1]] == [labels[0], labels[1]];
        assert labels[..3] == [labels[0], labels[1]] + [labels[2]];
        assert Run(INITIAL, labels[..3]).mode == FullAccess;
      }
    }
  }
}
