/** The core's side of the approvals, as the object it is: maps and sets changed in place. `history`
    remembers the steps, so that what is proved of every run holds of every object. */
module Approvals {
  import opened Common
  import opened ApprovalState
  import opened ApprovalTheorems

  lemma {:induction false} DeferParkedOneMore(s: Desk, visits: seq<Visit>, v: Visit)
    ensures DeferParked(s, visits + [v]) == DeferParked(DeferParked(s, visits), [v])
    decreases |visits|
  {
    if visits == [] {
      assert visits + [v] == [v];
    } else {
      assert (visits + [v])[1..] == visits[1..] + [v];
      var call := visits[0].callId;
      if call in s.pending {
        DeferParkedOneMore(Defer(s.(pending := s.pending - {call}), s.pending[call], visits[0].now), visits[1..], v);
      } else {
        DeferParkedOneMore(s, visits[1..], v);
      }
    }
  }

  class ApprovalDesk {
    var mode: ApprovalMode
    var attended: bool
    var approvedTools: set<string>
    var pendingApprovals: map<string, Request>
    var deferredActions: map<string, Request>
    var actionDecisions: map<Digest, bool>
    // The worker's requests, and what its answer channels carried.
    var channels: Channels
    ghost var history: seq<Label>

    ghost function View(): Desk
      reads this
    {
      Desk(mode, attended, approvedTools, pendingApprovals, deferredActions, actionDecisions, channels)
    }

    ghost predicate Valid()
      reads this
    {
      View() == Run(INITIAL, history)
    }

    constructor ()
      ensures Valid() && history == []
    {
      mode, attended, approvedTools := Manual, true, {};
      pendingApprovals, deferredActions, actionDecisions := map[], map[], map[];
      channels := INITIAL.channels;
      history := [];
    }

    ghost method Remember(l: Label, was: Desk)
      requires was == Run(INITIAL, history) && View() == Apply(was, l)
      modifies this`history
      ensures Valid() && history == old(history) + [l]
    {
      RunOneMore(history, l);
      history := history + [l];
    }

    method Respond(ticket: nat, outcome: Outcome)
      modifies this`channels
      ensures channels == Send(old(channels), ticket, outcome)
    {
      if ticket < |channels.answers| {
        channels := channels.(answers := channels.answers[ticket := channels.answers[ticket] + [outcome]]);
      }
    }

    /** The worker asks, and waits on its ticket; with no core listening it reads a denial. */
    method RequestApproval(callId: string, name: string, hunkIds: seq<string>, digest: Digest) returns (ticket: nat)
      requires Valid()
      modifies this
      ensures Valid() && View() == AskApproval(old(View()), callId, name, hunkIds, digest)
      ensures ticket == |old(channels).asked|
    {
      ghost var was := View();
      ticket := |channels.asked|;
      var r := Request(ticket, callId, name, hunkIds, digest);
      if channels.listening {
        channels := Issue(channels.(waiting := channels.waiting + [r]), r, []);
      } else {
        channels := Issue(channels, r, [Dropped]);
      }
      Remember(Ask(callId, name, hunkIds, digest), was);
    }

    /** An open action with this digest, whatever order the map is walked in. */
    method FindOpen(digest: Digest) returns (id: Option<string>)
      requires Deferrals(deferredActions, actionDecisions)
      ensures id == OpenWith(deferredActions, digest)
    {
      var left := deferredActions.Keys;
      id := None;
      while left != {} && id.None?
        invariant left <= deferredActions.Keys
        invariant id.Some? ==> id.value in deferredActions && deferredActions[id.value].digest == digest
        invariant id.None? ==> forall a :: a in deferredActions && a !in left ==> deferredActions[a].digest != digest
        decreases |left|
      {
        var a :| a in left;
        left := left - {a};
        if deferredActions[a].digest == digest {
          id := Some(a);
        }
      }
    }

    method DeferCall(r: Request, now: nat)
      requires Deferrals(deferredActions, actionDecisions)
      modifies this`deferredActions, this`channels
      ensures View() == Defer(old(View()), r, now)
    {
      if r.digest in actionDecisions {
        Respond(r.ticket, Sent(if actionDecisions[r.digest] then ALLOW_ALL else DENY));
        return;
      }
      var id := FindOpen(r.digest);
      if id.None? {
        id := Some(ActionId(now, r.digest));
        deferredActions := deferredActions[id.value := r];
      }
      Respond(r.ticket, Sent(Decision(false, None, id)));
    }

    method HandleRequest(r: Request, now: nat)
      requires Deferrals(deferredActions, actionDecisions)
      modifies this
      ensures View() == Handle(old(View()), r, now) && history == old(history)
    {
      if r.name in approvedTools || !RequiresApproval(mode, r.name) {
        Respond(r.ticket, Sent(ALLOW_ALL));
      } else if !attended {
        DeferCall(r, now);
      } else {
        if r.callId in pendingApprovals {
          Respond(pendingApprovals[r.callId].ticket, Dropped);
        }
        pendingApprovals := pendingApprovals[r.callId := r];
      }
    }

    /** Every waiting request is handled, in order; the clock may have moved at each. */
    method PollApprovalRequests()
      requires Valid()
      modifies this
      ensures Valid() && channels.waiting == []
      ensures |history| == |old(history)| + |old(channels).waiting| && old(history) <= history
      ensures forall i :: |old(history)| <= i < |history| ==> history[i].HandleNext?
    {
      RunKeepsInv(history);
      while channels.listening && channels.waiting != []
        invariant Valid() && Inv(View()) && old(history) <= history
        invariant |history| + |channels.waiting| == |old(history)| + |old(channels).waiting|
        invariant forall i :: |old(history)| <= i < |history| ==> history[i].HandleNext?
        decreases |channels.waiting|
      {
        ghost var was, before := View(), channels;
        var r := channels.waiting[0];
        var now: nat := *;
        channels := channels.(waiting := channels.waiting[1..]);
        HandleRequest(r, now);
        HandleKeepsWaiting(was.(channels := before.(waiting := before.waiting[1..])), r, now);
        Remember(HandleNext(now), was);
        RunKeepsInv(history);
      }
    }

    lemma HandleKeepsWaiting(s: Desk, r: Request, now: nat)
      ensures Handle(s, r, now).channels == s.channels.(answers := Handle(s, r, now).channels.answers)
    {
    }

    /** Leaving turns every parked call into a deferred action, in whatever order the map gives them. */
    method SetAttended(watching: bool) returns (ghost visits: seq<Visit>)
      requires Valid()
      modifies this
      ensures Valid() && View() == Attend(old(View()), watching, visits)
      ensures !watching ==> VisitsEach(visits, old(pendingApprovals)) && pendingApprovals == map[]
    {
      ghost var was := View();
      RunKeepsInv(history);
      attended := watching;
      visits := [];
      if !watching {
        visits := DeferAllParked();
        DeferParkedKeeps(was.(attended := false), visits);
        assert DeferParked(was.(attended := false), visits).pending == map[];
      }
      Remember(Label.SetAttended(watching, visits), was);
    }

    method DeferAllParked() returns (ghost visits: seq<Visit>)
      requires Settled(channels, pendingApprovals, None) && Deferrals(deferredActions, actionDecisions)
      modifies this`pendingApprovals, this`deferredActions, this`channels
      ensures VisitsEach(visits, old(pendingApprovals)) && pendingApprovals == map[]
      ensures View() == DeferParked(old(View()), visits).(pending := map[])
    {
      ghost var was := View();
      var parked := pendingApprovals;
      pendingApprovals := map[];
      visits := [];
      ghost var d := was;
      while parked != map[]
        invariant Visited(visits, was.pending.Keys, parked.Keys) && pendingApprovals == map[]
        invariant parked == d.pending && d == DeferParked(was, visits)
        invariant View() == d.(pending := map[]) && Deferrals(deferredActions, actionDecisions)
        decreases |parked|
      {
        var call :| call in parked;
        var now: nat := *;
        VisitedOneMore(visits, was.pending.Keys, parked.Keys, Visit(call, now));
        d := DeferOneMore(was, visits, d, Visit(call, now));
        visits := visits + [Visit(call, now)];
        DeferCall(parked[call], now);
        parked := parked - {call};
      }
      VisitedAll(visits, was.pending);
    }

    lemma VisitedAll(visits: seq<Visit>, pending: map<string, Request>)
      requires Visited(visits, pending.Keys, {})
      ensures VisitsEach(visits, pending)
    {
    }

    lemma DeferOneMore(was: Desk, visits: seq<Visit>, d: Desk, v: Visit) returns (e: Desk)
      requires d == DeferParked(was, visits) && v.callId in d.pending
      requires Settled(was.channels, was.pending, None) && Deferrals(was.open, was.decisions)
      ensures e == DeferParked(was, visits + [v])
      ensures e.pending == d.pending - {v.callId} && Deferrals(e.open, e.decisions)
      ensures e.(pending := map[]) == Defer(d.(pending := map[]), d.pending[v.callId], v.now)
    {
      e := Defer(d.(pending := d.pending - {v.callId}), d.pending[v.callId], v.now);
      assert [v][1..] == [];
      assert DeferParked(d, [v]) == e;
      DeferParkedOneMore(was, visits, v);
      DeferParkedKeeps(was, visits + [v]);
    }

    ghost predicate Visited(visits: seq<Visit>, all: set<string>, left: set<string>) {
      && left <= all
      && (forall i, j :: 0 <= i < j < |visits| ==> visits[i].callId != visits[j].callId)
      && (forall i :: 0 <= i < |visits| ==> visits[i].callId in all && visits[i].callId !in left)
      && (forall c :: c in all && c !in left ==> exists i :: 0 <= i < |visits| && visits[i].callId == c)
    }

    lemma VisitedOneMore(visits: seq<Visit>, all: set<string>, left: set<string>, v: Visit)
      requires Visited(visits, all, left) && v.callId in left
      ensures Visited(visits + [v], all, left - {v.callId})
    {
      var more := visits + [v];
      forall c | c in all && c !in left - {v.callId} ensures exists i :: 0 <= i < |more| && more[i].callId == c {
        if c == v.callId {
          assert more[|visits|].callId == c;
        } else {
          var i :| 0 <= i < |visits| && visits[i].callId == c;
          assert more[i].callId == c;
        }
      }
    }

    /** The calls the new mode does not gate run now; the others stay parked. */
    method SetApprovalMode(next: ApprovalMode)
      requires Valid()
      modifies this
      ensures Valid() && View() == SwitchMode(old(View()), next)
    {
      ghost var was := View();
      RunKeepsInv(history);
      mode := next;
      var freed := Freed(pendingApprovals, next);
      SendEach(freed, Sent(ALLOW_ALL));
      Remember(SetMode(next), was);
    }

    /** Answers the parked calls of `calls`, in any order, and forgets them. */
    method SendEach(calls: set<string>, outcome: Outcome)
      requires calls <= pendingApprovals.Keys && Settled(channels, pendingApprovals, None)
      modifies this`pendingApprovals, this`channels
      ensures pendingApprovals == old(pendingApprovals) - calls
      ensures channels == SendParked(old(channels), old(pendingApprovals), calls, outcome)
    {
      ghost var pending, before, done := pendingApprovals, channels, {};
      SendNone(before, pending, outcome);
      var left := calls;
      while left != {}
        invariant left <= calls && done == calls - left
        invariant pendingApprovals == pending - done
        invariant channels == SendParked(before, pending, done, outcome)
        decreases |left|
      {
        var call :| call in left;
        SendOneMore(before, pending, done, call, outcome);
        SendOne(call, outcome);
        left := left - {call};
        done := MinusOneMore(pending, calls, left, done, call);
      }
      assert calls - {} == calls;
    }

    method SendOne(call: string, outcome: Outcome)
      requires call in pendingApprovals
      modifies this`pendingApprovals, this`channels
      ensures pendingApprovals == old(pendingApprovals) - {call}
      ensures channels == Send(old(channels), old(pendingApprovals)[call].ticket, outcome)
    {
      Respond(pendingApprovals[call].ticket, outcome);
      pendingApprovals := pendingApprovals - {call};
    }

    lemma MinusOneMore(pending: map<string, Request>, calls: set<string>, left: set<string>, done: set<string>, call: string)
      returns (more: set<string>)
      requires left <= calls && done == calls - left - {call} && call in calls && call !in left
      ensures more == done + {call} && more == calls - left
      ensures pending - done - {call} == pending - more
    {
      more := done + {call};
    }

    lemma SendNone(c: Channels, pending: map<string, Request>, outcome: Outcome)
      ensures SendParked(c, pending, {}, outcome) == c
    {
    }

    lemma SendOneMore(c: Channels, pending: map<string, Request>, calls: set<string>, call: string, outcome: Outcome)
      requires Settled(c, pending, None) && call in pending && call !in calls
      ensures SendParked(c, pending, calls + {call}, outcome) ==
              Send(SendParked(c, pending, calls, outcome), pending[call].ticket, outcome)
    {
    }

    /** The client's answer to a parked call. A refused one leaves everything as it was. */
    method ResolveApprovalDecision(callId: string, allow: bool, always: bool, hunks: Option<seq<string>>)
      returns (refusal: Option<Refusal>)
      requires Valid()
      modifies this
      ensures Valid() && View() == ResolveDecision(old(View()), callId, allow, always, hunks)
      ensures refusal == CheckResolve(old(View()), callId, allow, always, hunks)
    {
      ghost var was := View();
      refusal := None;
      if callId !in pendingApprovals {
        refusal := Some(NoPendingApproval);
      } else if hunks.Some? {
        refusal := RefuseSelection(pendingApprovals[callId].hunkIds, hunks.value, allow, always);
      }
      if refusal.None? {
        var r := pendingApprovals[callId];
        pendingApprovals := pendingApprovals - {callId};
        if allow && always {
          approvedTools := approvedTools + {r.name};
        }
        var chosen: Option<seq<string>> := None;
        if hunks.Some? {
          var ids := WithoutRepeats(hunks.value);
          chosen := Some(ids);
        }
        Respond(r.ticket, Sent(Decision(allow, chosen, None)));
      }
      Remember(Resolve(callId, allow, always, hunks), was);
    }

    method DecideAction(id: string, allow: bool) returns (found: bool)
      requires Valid()
      modifies this
      ensures Valid() && View() == Decide(old(View()), id, allow)
      ensures found == (id in old(deferredActions))
    {
      ghost var was := View();
      found := id in deferredActions;
      if found {
        actionDecisions := actionDecisions[deferredActions[id].digest := allow];
        deferredActions := deferredActions - {id};
      }
      Remember(Label.DecideAction(id, allow), was);
    }

    /** A turn stopped, or another was spawned: no request of the old turn can be answered any more. */
    method ClearApprovals(listening: bool)
      requires Valid()
      modifies this
      ensures Valid() && View() == ResetChannels(old(View()), listening)
    {
      ghost var was := View();
      RunKeepsInv(history);
      SendEach(pendingApprovals.Keys, Dropped);
      assert was.pending - was.pending.Keys == map[];
      channels := SendWaiting(channels, Dropped).(listening := listening);
      Remember(Reset(listening), was);
    }
  }

  method RefuseSelection(known: seq<string>, requested: seq<string>, allow: bool, always: bool)
    returns (refusal: Option<Refusal>)
    ensures refusal == CheckSelection(known, requested, allow, always)
  {
    if always {
      return Some(HunksWithAlways);
    } else if !allow {
      return Some(HunksWithDeny);
    } else if known == [] {
      return Some(NoHunkSelection);
    } else if requested == [] {
      return Some(NoHunkIds);
    }
    var i := 0;
    while i < |requested|
      invariant i <= |requested|
      invariant FirstUnknown(requested, known) == FirstUnknown(requested[i..], known)
    {
      if requested[i] !in known {
        return Some(UnknownHunk(requested[i]));
      }
      assert requested[i..][1..] == requested[i + 1..];
      i := i + 1;
    }
    return None;
  }

  method WithoutRepeats(ids: seq<string>) returns (kept: seq<string>)
    ensures kept == Dedup(ids)
  {
    kept := [];
    var seen, i := {}, 0;
    while i < |ids|
      invariant i <= |ids|
      invariant kept == Dedup(ids[..i])
      invariant forall id :: id in seen <==> id in kept
    {
      assert ids[..i + 1][..i] == ids[..i];
      if ids[i] !in seen {
        seen := seen + {ids[i]};
        kept := kept + [ids[i]];
      }
      i := i + 1;
    }
    assert ids[..i] == ids;
  }
}
