/** Token refresh under a lock (crates/agent-core/src/oauth.rs): processes that share auth.json, and a
    server whose refresh tokens can be used once. Every step below is one action of one of them. */
module AuthRefresh {
  import opened Common

  datatype Tokens = Tokens(access: string, refresh: string, accessExpires: nat, refreshExpires: nat,
                           machine: Option<string>)

  // ---------------------------------------------------------------- what a call decides

  /** `is_this_machine`. */
  predicate IsThisMachine(recorded: Option<string>, here: Option<string>) {
    recorded.Some? && here.Some? ==> recorded == here
  }

  predicate IsCopied(auth: Option<Tokens>, here: Option<string>) {
    auth.Some? && !IsThisMachine(auth.value.machine, here)
  }

  predicate NeedsClaim(auth: Option<Tokens>, here: Option<string>) {
    auth.Some? && auth.value.machine.None? && here.Some?
  }

  function Claim(auth: Option<Tokens>, here: Option<string>): Option<Tokens> {
    if NeedsClaim(auth, here) then Some(auth.value.(machine := here)) else auth
  }

  datatype Plan = NotLoggedIn | Serve | Expired | AskServer

  const MARGIN_SECS := 120

  function PlanFor(auth: Option<Tokens>, refused: Option<string>, now: nat): Plan {
    if auth.None? then NotLoggedIn
    else if auth.value.accessExpires > now + MARGIN_SECS && refused != Some(auth.value.access) then Serve
    else if auth.value.refreshExpires <= now then Expired
    else AskServer
  }

  // ---------------------------------------------------------------- the shared world

  datatype Call = Session(refused: Option<string>) | Logout

  /** Where a process is: outside, waiting for the lock, or at one of the steps it takes holding it. */
  datatype Place =
    | Outside
    | Wanting(call: Call)
    | Holding(call: Call)
    | Claiming(refused: Option<string>, copy: Tokens)
    | Checking(refused: Option<string>, read: Option<Tokens>)
    | Asking(copy: Tokens)
    | Granted(tokens: Tokens)
    | Revoking(login: Option<Tokens>)
    | Clearing
    | Finished

  /** The server's side: the refresh token it would take, those it has taken, and all it ever issued. */
  datatype Server = Server(live: Option<string>, consumed: set<string>, issued: set<string>, grants: nat)

  /** A refresh token shown to the server, and whether it had been used before. */
  datatype Presentation = Presentation(refresh: string, wasConsumed: bool)

  datatype World = World(here: Option<string>, now: nat, disk: Option<Tokens>, holder: Option<nat>,
                         places: map<nat, Place>, server: Server, presented: seq<Presentation>)

  function PlaceOf(w: World, p: nat): Place {
    if p in w.places then w.places[p] else Outside
  }

  predicate InCritical(place: Place) {
    !place.Outside? && !place.Wanting?
  }

  datatype Label =
    | Call(p: nat, call: Call)
    | Acquire(p: nat)
    | Load(p: nat, ok: bool)
    | SaveClaim(p: nat, ok: bool)
    | Check(p: nat)
    | Ask(p: nat, reaches: bool, issue: Tokens)
    | SaveGranted(p: nat, ok: bool)
    | Revoke(p: nat, reaches: bool)
    | SaveCleared(p: nat, ok: bool)
    | Release(p: nat)
    | Tick(seconds: nat)
    | RevokeElsewhere

  function At(w: World, p: nat, place: Place): World {
    w.(places := w.places[p := place])
  }

  function TryAcquire(w: World, p: nat): World {
    match PlaceOf(w, p)
    case Wanting(call) => if w.holder.None? then At(w, p, Holding(call)).(holder := Some(p)) else w
    case _ => w
  }

  /** The reload; a login of another computer ends the call. */
  function LoadStep(w: World, p: nat, ok: bool): World {
    match PlaceOf(w, p)
    case Holding(Session(refused)) =>
      if !ok || IsCopied(w.disk, w.here) then At(w, p, Finished)
      else if NeedsClaim(w.disk, w.here) then At(w, p, Claiming(refused, Claim(w.disk, w.here).value))
      else At(w, p, Checking(refused, w.disk))
    case Holding(Logout) =>
      At(w, p, if !ok then Finished
               else Revoking(if IsCopied(w.disk, w.here) then None else w.disk))
    case _ => w
  }

  function SaveClaimStep(w: World, p: nat, ok: bool): World {
    match PlaceOf(w, p)
    case Claiming(refused, copy) =>
      if ok then At(w.(disk := Some(copy)), p, Checking(refused, Some(copy))) else At(w, p, Finished)
    case _ => w
  }

  function CheckStep(w: World, p: nat): World {
    match PlaceOf(w, p)
    case Checking(refused, copy) =>
      At(w, p, match PlanFor(copy, refused, w.now)
               case NotLoggedIn => Finished
               case Serve => Finished
               case Expired => Clearing
               case AskServer => Asking(copy.value))
    case _ => w
  }

  function Present(w: World, refresh: string): World {
    w.(presented := w.presented + [Presentation(refresh, refresh in w.server.consumed)])
  }

  function Grant(server: Server, refresh: string, issue: Tokens): Server {
    Server(Some(issue.refresh), server.consumed + {refresh}, server.issued + {issue.refresh}, server.grants + 1)
  }

  /** A refresh: the server takes its live token, once, and answers a new pair; anything else it refuses.
      What it issues is new. */
  function AskStep(w: World, p: nat, reaches: bool, issue: Tokens): World {
    match PlaceOf(w, p)
    case Asking(copy) =>
      if !reaches then At(w, p, Finished)
      else if w.server.live == Some(copy.refresh) then
        if issue.refresh in w.server.issued then w
        else At(Present(w, copy.refresh), p, Granted(issue.(machine := w.here)))
             .(server := Grant(w.server, copy.refresh, issue))
      else At(Present(w, copy.refresh), p, Clearing)
    case _ => w
  }

  function SaveGrantedStep(w: World, p: nat, ok: bool): World {
    match PlaceOf(w, p)
    case Granted(tokens) => At(if ok then w.(disk := Some(tokens)) else w, p, Finished)
    case _ => w
  }

  /** Signing out tells the server, if it can be reached. */
  function RevokeStep(w: World, p: nat, reaches: bool): World {
    match PlaceOf(w, p)
    case Revoking(copy) =>
      if copy.None? || !reaches then At(w, p, Clearing)
      else
        At(Present(w, copy.value.refresh), p, Clearing)
        .(server := if w.server.live == Some(copy.value.refresh) then w.server.(live := None) else w.server)
    case _ => w
  }

  function SaveClearedStep(w: World, p: nat, ok: bool): World {
    match PlaceOf(w, p)
    case Clearing => At(if ok then w.(disk := None) else w, p, Finished)
    case _ => w
  }

  function ReleaseStep(w: World, p: nat): World {
    match PlaceOf(w, p)
    case Finished => At(w, p, Outside).(holder := None)
    case _ => w
  }

  function Apply(w: World, l: Label): World {
    match l
    case Call(p, call) => if PlaceOf(w, p).Outside? then At(w, p, Wanting(call)) else w
    case Acquire(p) => TryAcquire(w, p)
    case Load(p, ok) => LoadStep(w, p, ok)
    case SaveClaim(p, ok) => SaveClaimStep(w, p, ok)
    case Check(p) => CheckStep(w, p)
    case Ask(p, reaches, issue) => AskStep(w, p, reaches, issue)
    case SaveGranted(p, ok) => SaveGrantedStep(w, p, ok)
    case Revoke(p, reaches) => RevokeStep(w, p, reaches)
    case SaveCleared(p, ok) => SaveClearedStep(w, p, ok)
    case Release(p) => ReleaseStep(w, p)
    case Tick(seconds) => w.(now := w.now + seconds)
    case RevokeElsewhere => w.(server := w.server.(live := None))
  }

  function Run(w: World, labels: seq<Label>): World
    decreases |labels|
  {
    if labels == [] then w else Run(Apply(w, labels[0]), labels[1..])
  }

  // ---------------------------------------------------------------- the invariant

  /** Only the process that holds the lock is between the reload and the release. */
  ghost predicate Exclusive(w: World) {
    forall p: nat :: InCritical(PlaceOf(w, p)) <==> w.holder == Some(p)
  }

  predicate SameTokens(a: Tokens, b: Tokens) {
    a.(machine := None) == b.(machine := None)
  }

  /** A token the server issued and has not taken back. */
  predicate Unused(server: Server, refresh: string) {
    refresh in server.issued && refresh !in server.consumed
  }

  predicate ServerSound(server: Server) {
    && server.consumed <= server.issued
    && (server.live.Some? ==> Unused(server, server.live.value))
  }

  /** What the holder has in hand: the disk's tokens, or the only unused ones. */
  predicate InHand(place: Place, disk: Option<Tokens>, server: Server) {
    match place
    case Granted(tokens) => Unused(server, tokens.refresh)
    case Claiming(_, copy) => disk.Some? && SameTokens(copy, disk.value) && Unused(server, copy.refresh)
    case Asking(copy) => disk.Some? && SameTokens(copy, disk.value) && Unused(server, copy.refresh)
    case Checking(_, copy) => copy == disk && (copy.Some? ==> Unused(server, copy.value.refresh))
    case Revoking(copy) => copy.Some? ==> copy == disk && Unused(server, copy.value.refresh)
    case _ => true
  }

  predicate HolderSound(w: World) {
    var place := if w.holder.Some? then PlaceOf(w, w.holder.value) else Outside;
    && InHand(place, w.disk, w.server)
    && (w.disk.Some? && !place.Granted? ==> Unused(w.server, w.disk.value.refresh))
  }

  predicate NoneStale(presented: seq<Presentation>) {
    forall i :: 0 <= i < |presented| ==> !presented[i].wasConsumed
  }

  ghost predicate Inv(w: World) {
    Exclusive(w) && ServerSound(w.server) && HolderSound(w) && NoneStale(w.presented)
  }

  /** The disk took what the server granted. */
  predicate Saves(l: Label) {
    l.SaveGranted? ==> l.ok
  }
}
