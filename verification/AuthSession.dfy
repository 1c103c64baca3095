/** `session` and `logout` as the calls they are: reload, decide, ask, save. One call alone takes exactly
    the steps of AuthRefresh. */
module AuthSession {
  import opened Common
  import opened AuthRefresh

  datatype Answer = Granted(tokens: Tokens) | Rejected | Failed

  /** Which reads and writes of the file succeed. */
  datatype Disk = Disk(loads: bool, savesClaim: bool, saves: bool)

  /** What a call leaves on the disk and returns, and the token it showed the server. */
  datatype Outcome = Outcome(disk: Option<Tokens>, result: Result<Tokens>, presented: seq<string>)

  function Refreshed(disk: Option<Tokens>, here: Option<string>, refresh: string, io: Disk, answer: Answer): Outcome {
    match answer
    case Failed => Outcome(disk, Err("failed to refresh JuCode session"), [])
    case Rejected => Outcome(if io.saves then None else disk, Err("the JuCode login is no longer valid"), [refresh])
    case Granted(tokens) =>
      var renewed := tokens.(machine := here);
      if io.saves then Outcome(Some(renewed), Ok(renewed), [refresh]) else Outcome(disk, Err("save failed"), [refresh])
  }

  function Checked(disk: Option<Tokens>, here: Option<string>, refused: Option<string>, now: nat, io: Disk,
                   answer: Answer): Outcome {
    match PlanFor(disk, refused, now)
    case NotLoggedIn => Outcome(disk, Err("not logged in to JuCode"), [])
    case Serve => Outcome(disk, Ok(disk.value), [])
    case Expired => Outcome(if io.saves then None else disk, Err("JuCode session expired"), [])
    case AskServer => Refreshed(disk, here, disk.value.refresh, io, answer)
  }

  function SessionOutcome(disk: Option<Tokens>, here: Option<string>, refused: Option<string>, now: nat, io: Disk,
                          answer: Answer): Outcome {
    if !io.loads then Outcome(disk, Err("failed to reload auth.json"), [])
    else if IsCopied(disk, here) then Outcome(disk, Err("this JuCode login was copied"), [])
    else if NeedsClaim(disk, here) && !io.savesClaim then Outcome(disk, Err("save failed"), [])
    else Checked(Claim(disk, here), here, refused, now, io, answer)
  }

  class AuthFile {
    var disk: Option<Tokens>
    var presented: seq<string>

    method Session(here: Option<string>, refused: Option<string>, now: nat, io: Disk, answer: Answer)
      returns (r: Result<Tokens>)
      modifies this
      ensures var o := SessionOutcome(old(disk), here, refused, now, io, answer);
              disk == o.disk && r == o.result && presented == old(presented) + o.presented
    {
      assert presented + [] == presented;
      if !io.loads {
        return Err("failed to reload auth.json");
      }
      if disk.Some? && !IsThisMachine(disk.value.machine, here) {
        return Err("this JuCode login was copied");
      }
      if NeedsClaim(disk, here) {
        if !io.savesClaim {
          return Err("save failed");
        }
        disk := Some(disk.value.(machine := here));
      }
      r := CheckLogin(here, refused, now, io, answer);
    }

    method CheckLogin(here: Option<string>, refused: Option<string>, now: nat, io: Disk, answer: Answer)
      returns (r: Result<Tokens>)
      modifies this
      ensures var o := Checked(old(disk), here, refused, now, io, answer);
              disk == o.disk && r == o.result && presented == old(presented) + o.presented
    {
      assert presented + [] == presented;
      if disk.None? {
        return Err("not logged in to JuCode");
      }
      var t := disk.value;
      if t.accessExpires > now + MARGIN_SECS && refused != Some(t.access) {
        return Ok(t);
      }
      if t.refreshExpires <= now {
        Clear(io);
        return Err("JuCode session expired");
      }
      r := Refresh(t.refresh, here, io, answer);
    }

    method Refresh(refresh: string, here: Option<string>, io: Disk, answer: Answer) returns (r: Result<Tokens>)
      modifies this
      ensures var o := Refreshed(old(disk), here, refresh, io, answer);
              disk == o.disk && r == o.result && presented == old(presented) + o.presented
    {
      assert presented + [] == presented;
      if answer.Failed? {
        return Err("failed to refresh JuCode session");
      }
      presented := presented + [refresh];
      if answer.Rejected? {
        Clear(io);
        return Err("the JuCode login is no longer valid");
      }
      if !io.saves {
        return Err("save failed");
      }
      disk := Some(answer.tokens.(machine := here));
      r := Ok(disk.value);
    }

    method Clear(io: Disk)
      modifies this`disk
      ensures disk == if io.saves then None else old(disk)
    {
      if io.saves {
        disk := None;
      }
    }

    /** Signing out drops the login whatever the server says, and revokes only this computer's. */
    method Logout(here: Option<string>, reaches: bool, io: Disk) returns (ok: bool)
      modifies this
      ensures ok == (io.loads && io.saves) && disk == if ok then None else old(disk)
      ensures presented == old(presented) +
              (if io.loads && reaches && old(disk).Some? && !IsCopied(old(disk), here) then [old(disk).value.refresh] else [])
    {
      if !io.loads {
        return false;
      }
      if disk.Some? && IsThisMachine(disk.value.machine, here) && reaches {
        presented := presented + [disk.value.refresh];
      }
      Clear(io);
      ok := io.saves;
    }
  }

  // ---------------------------------------------------------------- what a session promises

  /** A session that succeeds returns what is on the disk, and unless it was just granted it is good for
      the margin and is not the token that was refused. */
  lemma SessionIsGood(disk: Option<Tokens>, here: Option<string>, refused: Option<string>, now: nat, io: Disk, answer: Answer)
    requires SessionOutcome(disk, here, refused, now, io, answer).result.Ok?
    ensures var o := SessionOutcome(disk, here, refused, now, io, answer);
            && o.disk == Some(o.result.value) && (here.Some? ==> o.result.value.machine == here)
            && (o.presented == [] ==> o.result.value.accessExpires > now + MARGIN_SECS && refused != Some(o.result.value.access))
            && (o.presented != [] ==> answer.Granted? && o.result.value == answer.tokens.(machine := here))
  {
  }

  /** The login is dropped exactly when its refresh token is past its time or the server refused it. */
  lemma DroppedExactly(disk: Option<Tokens>, here: Option<string>, refused: Option<string>, now: nat, io: Disk, answer: Answer)
    requires disk.Some?
    ensures SessionOutcome(disk, here, refused, now, io, answer).disk.None? <==>
            && io.loads && io.saves && (NeedsClaim(disk, here) ==> io.savesClaim) && !IsCopied(disk, here)
            && !(disk.value.accessExpires > now + MARGIN_SECS && refused != Some(disk.value.access))
            && (disk.value.refreshExpires <= now || answer.Rejected?)
  {
  }

  /** A login copied from another computer is neither used nor changed. */
  lemma CopiedLoginIsLeftAlone(disk: Option<Tokens>, here: Option<string>, refused: Option<string>, now: nat, io: Disk, answer: Answer)
    requires IsCopied(disk, here)
    ensures var o := SessionOutcome(disk, here, refused, now, io, answer);
            o.disk == disk && o.presented == [] && o.result.Err?
  {
  }

  /** The file could be read, and holds a login of this computer or of none, which is recorded as this one's. */
  predicate IsOurs(disk: Option<Tokens>, here: Option<string>, io: Disk) {
    && io.loads && disk.Some?
    && (disk.value.machine.None? ==> here.None? || io.savesClaim)
    && (disk.value.machine.Some? && here.Some? ==> disk.value.machine.value == here.value)
  }

  /** The access token can be used for two more minutes, and nobody was refused with it. */
  predicate IsGood(login: Tokens, refused: Option<string>, now: nat) {
    login.accessExpires > now + 120 && (refused.Some? ==> refused.value != login.access)
  }

  /** A session is served from the disk exactly if there is a login of this computer with a good access token: it
      is that login, with the computer recorded, and the server hears nothing. */
  lemma ServedExactly(disk: Option<Tokens>, here: Option<string>, refused: Option<string>, now: nat, io: Disk, answer: Answer)
    ensures var o := SessionOutcome(disk, here, refused, now, io, answer);
            && (o.result.Ok? && o.presented == [] <==> IsOurs(disk, here, io) && IsGood(disk.value, refused, now))
            && (o.result.Ok? && o.presented == [] ==>
                  o.result.value == disk.value.(machine := if here.Some? then here else disk.value.machine))
  {
  }

  /** The server is shown the refresh token exactly if there is a login of this computer whose access token is not
      good and whose refresh token is not past its time, and the server is reached. The call succeeds exactly
      if it then grants tokens and they are saved. */
  lemma AskedExactly(disk: Option<Tokens>, here: Option<string>, refused: Option<string>, now: nat, io: Disk, answer: Answer)
    ensures var o := SessionOutcome(disk, here, refused, now, io, answer);
            var asks := IsOurs(disk, here, io) && !IsGood(disk.value, refused, now) && disk.value.refreshExpires > now && !answer.Failed?;
            && o.presented == (if asks then [disk.value.refresh] else [])
            && (asks ==> (o.result.Ok? <==> answer.Granted? && io.saves))
            && (asks && o.result.Ok? ==> o.result.value == answer.tokens.(machine := here) && o.disk == Some(o.result.value))
  {
  }

  /** Unless tokens were granted or the login was dropped, what is on the disk stays, but for the computer that is
      recorded with it. */
  lemma OtherwiseKept(disk: Option<Tokens>, here: Option<string>, refused: Option<string>, now: nat, io: Disk, answer: Answer)
    ensures var o := SessionOutcome(disk, here, refused, now, io, answer);
            (o.result.Ok? ==> o.presented == []) && (disk.Some? ==> o.disk.Some?) ==>
              o.disk == if IsOurs(disk, here, io) && here.Some? then Some(disk.value.(machine := here)) else disk
  {
  }

  // ---------------------------------------------------------------- the steps of one call

  /** What the server answers this token. */
  function AnswerOf(server: Server, refresh: string, reaches: bool, issue: Tokens): Answer {
    if !reaches then Failed else if server.live == Some(refresh) then Answer.Granted(issue) else Rejected
  }

  /** The tokens as the server sees them. */
  function Presentations(refreshes: seq<string>, consumed: set<string>): seq<Presentation> {
    seq(|refreshes|, i requires 0 <= i < |refreshes| => Presentation(refreshes[i], refreshes[i] in consumed))
  }

  /** Every step one session can take, in order; a step that is not due changes nothing. */
  function UpToCheck(w: World, p: nat, refused: Option<string>, io: Disk): World {
    var called := Apply(Apply(w, Label.Call(p, Session(refused))), Acquire(p));
    Apply(Apply(Apply(called, Load(p, io.loads)), SaveClaim(p, io.savesClaim)), Check(p))
  }

  function FromCheck(w: World, p: nat, io: Disk, reaches: bool, issue: Tokens): World {
    FromAnswer(Apply(w, Ask(p, reaches, issue)), p, io)
  }

  function FromAnswer(w: World, p: nat, io: Disk): World {
    Apply(Apply(Apply(w, SaveGranted(p, io.saves)), SaveCleared(p, io.saves)), Release(p))
  }

  lemma CheckedAlone(w: World, p: nat, refused: Option<string>, io: Disk)
    requires w.holder.None? && PlaceOf(w, p).Outside?
    ensures var u := UpToCheck(w, p, refused, io);
            && u.server == w.server && u.presented == w.presented && u.here == w.here && u.holder == Some(p)
            && if !io.loads || IsCopied(w.disk, w.here) || (NeedsClaim(w.disk, w.here) && !io.savesClaim)
               then PlaceOf(u, p).Finished? && u.disk == w.disk
               else
                 && u.disk == Claim(w.disk, w.here)
                 && PlaceOf(u, p) == match PlanFor(u.disk, refused, w.now)
                                     case NotLoggedIn => Finished
                                     case Serve => Finished
                                     case Expired => Clearing
                                     case AskServer => Asking(u.disk.value)
  {
  }

  /** From the answer on a call saves what it has, or nothing, and lets go. */
  lemma SettlesAlone(w: World, p: nat, io: Disk)
    requires PlaceOf(w, p).Finished? || PlaceOf(w, p).Clearing? || PlaceOf(w, p).Granted?
    ensures var u := FromAnswer(w, p, io);
            && u.presented == w.presented && u.server == w.server && u.holder.None? && PlaceOf(u, p).Outside?
            && u.disk == match PlaceOf(w, p)
                         case Granted(tokens) => (if io.saves then Some(tokens) else w.disk)
                         case Clearing => (if io.saves then None else w.disk)
                         case _ => w.disk
  {
  }

  lemma AsksAlone(w: World, p: nat, reaches: bool, issue: Tokens)
    requires PlaceOf(w, p).Asking? && issue.refresh !in w.server.issued
    ensures var u := Apply(w, Ask(p, reaches, issue));
            var refresh := PlaceOf(w, p).copy.refresh;
            && u.disk == w.disk
            && match AnswerOf(w.server, refresh, reaches, issue)
               case Failed => PlaceOf(u, p) == Finished && u.presented == w.presented
               case Rejected => PlaceOf(u, p) == Clearing && u.presented == w.presented + [Presentation(refresh, refresh in w.server.consumed)]
               case Granted(_) =>
                 && PlaceOf(u, p) == Place.Granted(issue.(machine := w.here))
                 && u.presented == w.presented + [Presentation(refresh, refresh in w.server.consumed)]
  {
  }

  lemma AskedAlone(w: World, p: nat, io: Disk, reaches: bool, issue: Tokens)
    requires PlaceOf(w, p).Asking? && w.disk == Some(PlaceOf(w, p).copy) && issue.refresh !in w.server.issued
    ensures var u := FromCheck(w, p, io, reaches, issue);
            var o := Refreshed(w.disk, w.here, w.disk.value.refresh, io, AnswerOf(w.server, w.disk.value.refresh, reaches, issue));
            && u.disk == o.disk && u.presented == w.presented + Presentations(o.presented, w.server.consumed)
            && u.holder.None? && PlaceOf(u, p).Outside?
  {
    AsksAlone(w, p, reaches, issue);
    SettlesAlone(Apply(w, Ask(p, reaches, issue)), p, io);
    OnePresentation(w.disk.value.refresh, w.server.consumed);
    assert w.presented + [] == w.presented;
  }

  lemma OnePresentation(refresh: string, consumed: set<string>)
    ensures Presentations([refresh], consumed) == [Presentation(refresh, refresh in consumed)] && Presentations([], consumed) == []
  {
  }

  /** A session left alone does to the disk what its specification says, shows the server the tokens it
      says, and lets go of the lock. */
  lemma SessionIsItsSteps(w: World, p: nat, refused: Option<string>, io: Disk, reaches: bool, issue: Tokens)
    requires w.holder.None? && PlaceOf(w, p).Outside? && issue.refresh !in w.server.issued
    ensures var u := FromCheck(UpToCheck(w, p, refused, io), p, io, reaches, issue);
            var refresh := if w.disk.Some? then w.disk.value.refresh else "";
            var o := SessionOutcome(w.disk, w.here, refused, w.now, io, AnswerOf(w.server, refresh, reaches, issue));
            && u.disk == o.disk && u.presented == w.presented + Presentations(o.presented, w.server.consumed)
            && u.holder.None? && PlaceOf(u, p).Outside?
  {
    var c := UpToCheck(w, p, refused, io);
    CheckedAlone(w, p, refused, io);
    assert w.presented + Presentations([], w.server.consumed) == w.presented;
    if PlaceOf(c, p).Asking? {
      AskedAlone(c, p, io, reaches, issue);
    } else {
      SettlesAlone(c, p, io);
    }
  }

  /** Every step of a sign-out, in order. */
  function SignedOut(w: World, p: nat, io: Disk, reaches: bool): World {
    var loaded := Apply(Apply(Apply(w, Label.Call(p, Call.Logout)), Acquire(p)), Load(p, io.loads));
    FromAnswer(Apply(loaded, Revoke(p, reaches)), p, io)
  }

  lemma RevokesAlone(w: World, p: nat, io: Disk, reaches: bool)
    requires w.holder.None? && PlaceOf(w, p).Outside?
    ensures var loaded := Apply(Apply(Apply(w, Label.Call(p, Call.Logout)), Acquire(p)), Load(p, io.loads));
            var u := Apply(loaded, Revoke(p, reaches));
            var tells := io.loads && reaches && w.disk.Some? && !IsCopied(w.disk, w.here);
            && u.disk == w.disk && PlaceOf(u, p) == (if io.loads then Clearing else Finished)
            && u.presented == w.presented + (if tells then [Presentation(w.disk.value.refresh, w.disk.value.refresh in w.server.consumed)] else [])
            && (tells && w.server.live == Some(w.disk.value.refresh) ==> u.server.live.None?)
  {
    assert w.presented + [] == w.presented;
  }

  /** A sign-out left alone drops the login exactly if the file could be read and written, shows the server only a
      login of this computer, which can not be used from then on, and lets go of the lock. */
  lemma LogoutIsItsSteps(w: World, p: nat, io: Disk, reaches: bool)
    requires w.holder.None? && PlaceOf(w, p).Outside?
    ensures var u := SignedOut(w, p, io, reaches);
            var tells := io.loads && reaches && w.disk.Some? && !IsCopied(w.disk, w.here);
            && u.disk == (if io.loads && io.saves then None else w.disk) && u.holder.None? && PlaceOf(u, p).Outside?
            && u.presented == w.presented + Presentations(if tells then [w.disk.value.refresh] else [], w.server.consumed)
            && (tells ==> u.server.live != Some(w.disk.value.refresh))
  {
    RevokesAlone(w, p, io, reaches);
    var loaded := Apply(Apply(Apply(w, Label.Call(p, Call.Logout)), Acquire(p)), Load(p, io.loads));
    SettlesAlone(Apply(loaded, Revoke(p, reaches)), p, io);
    if w.disk.Some? {
      OnePresentation(w.disk.value.refresh, w.server.consumed);
    }
  }
}
