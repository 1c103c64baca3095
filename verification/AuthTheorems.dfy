/** What the lock is for: no refresh token is shown to the server after it was used, and callers refused
    with one access token share one refresh. */
module AuthTheorems {
  import opened Common
  import opened AuthRefresh

  // ---------------------------------------------------------------- single use

  /** A step of the lock's holder that stays inside. */
  lemma HolderMoves(w: World, p: nat, place: Place)
    requires Exclusive(w) && w.holder == Some(p) && InCritical(place)
    ensures Exclusive(At(w, p, place)) && PlaceOf(At(w, p, place), p) == place
  {
  }

  lemma OthersMove(w: World, l: Label)
    requires Inv(w) && (l.Call? || l.Acquire? || l.Release? || l.Tick? || l.RevokeElsewhere?)
    ensures Inv(Apply(w, l))
  {
  }

  lemma LoadKeepsInv(w: World, p: nat, ok: bool)
    requires Inv(w)
    ensures Inv(LoadStep(w, p, ok))
  {
    if PlaceOf(w, p).Holding? {
      HolderMoves(w, p, PlaceOf(LoadStep(w, p, ok), p));
    }
  }

  lemma CheckKeepsInv(w: World, p: nat, ok: bool)
    requires Inv(w)
    ensures Inv(SaveClaimStep(w, p, ok)) && Inv(CheckStep(w, p))
  {
    if PlaceOf(w, p).Claiming? {
      HolderMoves(w, p, PlaceOf(SaveClaimStep(w, p, ok), p));
    }
    if PlaceOf(w, p).Checking? {
      HolderMoves(w, p, PlaceOf(CheckStep(w, p), p));
    }
  }

  lemma AskKeepsInv(w: World, p: nat, reaches: bool, issue: Tokens)
    requires Inv(w)
    ensures Inv(AskStep(w, p, reaches, issue))
  {
    if PlaceOf(w, p).Asking? {
      HolderMoves(w, p, PlaceOf(AskStep(w, p, reaches, issue), p));
    }
  }

  lemma RevokeKeepsInv(w: World, p: nat, reaches: bool)
    requires Inv(w)
    ensures Inv(RevokeStep(w, p, reaches))
  {
    if PlaceOf(w, p).Revoking? {
      HolderMoves(w, p, Clearing);
    }
  }

  lemma SaveKeepsInv(w: World, p: nat, ok: bool)
    requires Inv(w)
    ensures Inv(SaveGrantedStep(w, p, true)) && Inv(SaveClearedStep(w, p, ok))
  {
    if PlaceOf(w, p).Granted? || PlaceOf(w, p).Clearing? {
      HolderMoves(w, p, Finished);
    }
  }

  lemma StepKeepsInv(w: World, l: Label)
    requires Inv(w) && Saves(l)
    ensures Inv(Apply(w, l))
  {
    match l
    case Load(p, ok) => LoadKeepsInv(w, p, ok);
    case SaveClaim(p, ok) => CheckKeepsInv(w, p, ok);
    case Check(p) => CheckKeepsInv(w, p, true);
    case Ask(p, reaches, issue) => AskKeepsInv(w, p, reaches, issue);
    case SaveGranted(p, _) => SaveKeepsInv(w, p, true);
    case Revoke(p, reaches) => RevokeKeepsInv(w, p, reaches);
    case SaveCleared(p, ok) => SaveKeepsInv(w, p, ok);
    case _ => OthersMove(w, l);
  }

  lemma {:induction false} RunKeepsInv(w: World, labels: seq<Label>)
    requires Inv(w) && forall i :: 0 <= i < |labels| ==> Saves(labels[i])
    ensures Inv(Run(w, labels))
    decreases |labels|
  {
    if labels != [] {
      StepKeepsInv(w, labels[0]);
      RunKeepsInv(Apply(w, labels[0]), labels[1..]);
    }
  }

  /** A world in which nobody is signing in or out, with a login the server may or may not still take. */
  predicate AtRest(w: World) {
    && w.holder.None? && w.places == map[] && w.presented == [] && ServerSound(w.server)
    && (w.disk.Some? ==> Unused(w.server, w.disk.value.refresh))
  }

  /** However the calls of any number of processes interleave, a refresh token is never presented once
      the server has consumed it, if every granted pair reaches the disk. */
  lemma NoTokenIsPresentedTwice(w: World, labels: seq<Label>, i: nat)
    requires AtRest(w) && forall k :: 0 <= k < |labels| ==> Saves(labels[k])
    requires i < |Run(w, labels).presented|
    ensures !Run(w, labels).presented[i].wasConsumed
  {
    assert Exclusive(w);
    RunKeepsInv(w, labels);
  }

  /** Two processes are never between the reload and the release at once. */
  lemma OneAtATime(w: World, labels: seq<Label>, p: nat, q: nat)
    requires AtRest(w) && forall k :: 0 <= k < |labels| ==> Saves(labels[k])
    requires InCritical(PlaceOf(Run(w, labels), p)) && InCritical(PlaceOf(Run(w, labels), q))
    ensures p == q
  {
    assert Exclusive(w);
    RunKeepsInv(w, labels);
  }

  // ---------------------------------------------------------------- what a lost save costs

  lemma {:induction false} RunOn(w: World, first: seq<Label>, more: seq<Label>)
    ensures Run(w, first + more) == Run(Run(w, first), more)
    decreases |first|
  {
    if first == [] {
      assert first + more == more;
    } else {
      assert (first + more)[1..] == first[1..] + more;
      RunOn(Apply(w, first[0]), first[1..], more);
    }
  }

  lemma RunThree(w: World, a: Label, b: Label, c: Label)
    ensures Run(w, [a, b, c]) == Apply(Apply(Apply(w, a), b), c) && Run(w, [a]) == Apply(w, a)
  {
    assert [a, b, c][1..] == [b, c] && [b, c][1..] == [c] && [c][1..] == [] && [a][1..] == [];
    assert Run(w, [a, b, c]) == Run(Apply(w, a), [b, c]);
    assert Run(Apply(w, a), [b, c]) == Run(Apply(Apply(w, a), b), [c]);
  }

  /** A session check of a process as far as the server. */
  function CheckSteps(p: nat): seq<Label> {
    [Label.Call(p, Session(None)), Acquire(p), Load(p, true), Check(p)]
  }

  /** A login of this computer whose access token is out of date and whose refresh token is not. */
  predicate NeedsRefresh(w: World) {
    && w.disk.Some? && w.here.Some? && w.disk.value.machine == w.here
    && w.disk.value.accessExpires <= w.now < w.disk.value.refreshExpires
  }

  lemma ChecksToAsk(w: World, p: nat)
    requires w.holder.None? && PlaceOf(w, p).Outside? && NeedsRefresh(w)
    ensures var u := Run(w, CheckSteps(p));
            && PlaceOf(u, p) == Asking(w.disk.value) && u.holder == Some(p)
            && u == w.(holder := u.holder, places := u.places)
  {
    var steps := CheckSteps(p);
    var a := Apply(w, steps[0]);
    var b := Apply(a, steps[1]);
    var c := Apply(b, steps[2]);
    assert PlaceOf(a, p) == Wanting(Session(None)) && PlaceOf(b, p) == Holding(Session(None));
    assert PlaceOf(c, p) == Checking(None, w.disk);
    RunOn(w, [steps[0]], [steps[1], steps[2], steps[3]]);
    assert steps == [steps[0]] + [steps[1], steps[2], steps[3]];
    RunThree(a, steps[1], steps[2], steps[3]);
  }

  /** The granted pair is lost on the way to the disk, and the lock is let go. */
  lemma LosesGrant(w: World, p: nat, issue: Tokens)
    requires PlaceOf(w, p).Asking? && w.server.live == Some(PlaceOf(w, p).copy.refresh)
    requires issue.refresh !in w.server.issued && PlaceOf(w, p).copy.refresh in w.server.issued
    ensures var u := Run(w, [Ask(p, true, issue), SaveGranted(p, false), Release(p)]);
            var refresh := PlaceOf(w, p).copy.refresh;
            && u.disk == w.disk && u.now == w.now && u.here == w.here && u.holder.None? && PlaceOf(u, p).Outside?
            && u.presented == w.presented + [Presentation(refresh, refresh in w.server.consumed)]
            && refresh in u.server.consumed && u.server.live != Some(refresh)
  {
    var steps := [Ask(p, true, issue), SaveGranted(p, false), Release(p)];
    var a := Apply(w, steps[0]);
    var b := Apply(a, steps[1]);
    assert PlaceOf(a, p).Granted? && PlaceOf(b, p) == Finished;
    RunThree(w, steps[0], steps[1], steps[2]);
  }

  /** The premise is needed: in a world at rest whose login the server still takes, a refresh whose pair
      does not reach the disk makes the next check present the consumed token. */
  lemma LostGrantIsReplayed(w: World, p: nat, issue: Tokens, again: Tokens) returns (labels: seq<Label>)
    requires AtRest(w) && NeedsRefresh(w) && w.server.live == Some(w.disk.value.refresh)
    requires issue.refresh !in w.server.issued
    ensures Run(w, labels).presented ==
            [Presentation(w.disk.value.refresh, false), Presentation(w.disk.value.refresh, true)]
  {
    var refresh := w.disk.value.refresh;
    var lost := [Ask(p, true, issue), SaveGranted(p, false), Release(p)];
    var first := CheckSteps(p) + lost;
    ChecksToAsk(w, p);
    RunOn(w, CheckSteps(p), lost);
    LosesGrant(Run(w, CheckSteps(p)), p, issue);
    var u := Run(w, first);
    ChecksToAsk(u, p);
    RunOn(w, first, CheckSteps(p));
    var v := Run(u, CheckSteps(p));
    RunOn(w, first + CheckSteps(p), [Ask(p, true, again)]);
    assert Run(v, [Ask(p, true, again)]) == Apply(v, Ask(p, true, again)) by {
      assert [Ask(p, true, again)][1..] == [];
    }
    labels := first + CheckSteps(p) + [Ask(p, true, again)];
    assert [] + [Presentation(refresh, false)] + [Presentation(refresh, true)] ==
           [Presentation(refresh, false), Presentation(refresh, true)];
  }

  // ---------------------------------------------------------------- one refresh for all who were refused

  /** Everybody is here because one access token was refused. */
  predicate AllRefused(w: World, access: string) {
    forall p :: p in w.places ==>
      match w.places[p]
      case Outside => true
      case Finished => true
      case Wanting(call) => call == Session(Some(access))
      case Holding(call) => call == Session(Some(access))
      case Claiming(refused, _) => refused == Some(access)
      case Checking(refused, _) => refused == Some(access)
      case Asking(_) => true
      case Granted(_) => true
      case Clearing => true
      case Revoking(_) => false
  }

  /** A pair that settles the refusal until a moment. */
  predicate Settles(t: Tokens, access: string, until: nat) {
    t.access != access && t.accessExpires > until + MARGIN_SECS
  }

  /** The step is one of a refused caller's, and what the server issues settles the refusal. */
  predicate ServesRefused(l: Label, access: string, until: nat) {
    match l
    case Call(_, call) => call == Session(Some(access))
    case Ask(_, _, issue) => Settles(issue, access, until)
    case SaveGranted(_, ok) => ok
    case _ => true
  }

  /** Nothing was granted yet, or the pair is there and nobody is about to ask. */
  predicate SettledOnce(w: World, access: string, until: nat, before: nat) {
    || w.server.grants == before
    || (w.server.grants == before + 1 && w.holder.Some? && PlaceOf(w, w.holder.value).Granted? &&
        Settles(PlaceOf(w, w.holder.value).tokens, access, until))
    || (w.server.grants == before + 1 && w.disk.Some? && Settles(w.disk.value, access, until) &&
        !(w.holder.Some? && (PlaceOf(w, w.holder.value).Asking? || PlaceOf(w, w.holder.value).Clearing? ||
                             PlaceOf(w, w.holder.value).Granted?)))
  }

  lemma RefusedStaySo(w: World, l: Label, access: string, until: nat)
    requires AllRefused(w, access) && ServesRefused(l, access, until)
    ensures AllRefused(Apply(w, l), access)
  {
  }

  lemma StepSettlesOnce(w: World, l: Label, access: string, until: nat, before: nat)
    requires Inv(w) && AllRefused(w, access) && ServesRefused(l, access, until) && Apply(w, l).now <= until
    requires SettledOnce(w, access, until, before)
    ensures SettledOnce(Apply(w, l), access, until, before)
  {
  }

  lemma {:induction false} TimeGoesOn(w: World, labels: seq<Label>)
    ensures w.now <= Run(w, labels).now
    decreases |labels|
  {
    if labels != [] {
      TimeGoesOn(Apply(w, labels[0]), labels[1..]);
    }
  }

  /** Any number of processes whose calls were refused with the same access token, in any interleaving,
      cause at most one refresh, if the pair it brings stays good for the margin to the end. */
  lemma {:induction false} OneRefreshServesAll(w: World, labels: seq<Label>, access: string, until: nat, before: nat)
    requires Inv(w) && AllRefused(w, access) && SettledOnce(w, access, until, before)
    requires forall i :: 0 <= i < |labels| ==> ServesRefused(labels[i], access, until)
    requires Run(w, labels).now <= until
    ensures Run(w, labels).server.grants <= before + 1
    decreases |labels|
  {
    if labels != [] {
      var next := Apply(w, labels[0]);
      TimeGoesOn(next, labels[1..]);
      StepKeepsInv(w, labels[0]);
      RefusedStaySo(w, labels[0], access, until);
      StepSettlesOnce(w, labels[0], access, until, before);
      OneRefreshServesAll(next, labels[1..], access, until, before);
    }
  }
}
