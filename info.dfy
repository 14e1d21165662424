/**
 * `info`, `getpid`, `getuid`, `getgid` and `whoami`
 * (client/command/info/info.go): which target a command describes, what it
 * prints about it, and when `whoami` asks the implant for its token owner.
 */
module Info {
  import opened Common
  import opened Records
  import opened Strings
  import opened ClientState
  import opened Use

  /** A lookup by id, as the (session, bacon, err) triple InfoCmd goes on with. */
  function Found(r: Outcome<Target>): Outcome<Option<Target>> {
    if r.Ok? then Ok(Some(r.value)) else Fail(r.error)
  }

  /** The id of the active target: the session's when a session is active. */
  function ActiveId(s: Option<Session>, b: Option<Bacon>): string
    requires s.Some? || b.Some?
  {
    if s.Some? then s.value.id else b.value.id
  }

  /**
   * The target InfoCmd describes: the id argument wins; otherwise the
   * active target is looked up again by its id; otherwise the user picks.
   */
  function InfoTarget(args: seq<string>, activeSession: Option<Session>, activeBacon: Option<Bacon>,
                      sessions: Outcome<seq<Session>>, bacons: Outcome<seq<Bacon>>,
                      sessionLine: Session -> string, baconLine: Bacon -> string, selected: string): Outcome<Option<Target>>
  {
    if |args| > 0 then Found(SessionOrBaconByID(args[0], sessions, bacons))
    else if activeSession.Some? || activeBacon.Some? then
      Found(SessionOrBaconByID(ActiveId(activeSession, activeBacon), sessions, bacons))
    else Selection(sessions, bacons, sessionLine, baconLine, selected)
  }

  /**
   * An id argument decides alone: neither the active target nor the
   * picker matters, and whatever is found carries the argument as a prefix
   * of its id, a session before any bacon.
   */
  lemma ArgumentWins(args: seq<string>, s1: Option<Session>, b1: Option<Bacon>, s2: Option<Session>, b2: Option<Bacon>,
                     sessions: Outcome<seq<Session>>, bacons: Outcome<seq<Bacon>>,
                     sessionLine: Session -> string, baconLine: Bacon -> string, selected1: string, selected2: string)
    requires |args| > 0
    ensures InfoTarget(args, s1, b1, sessions, bacons, sessionLine, baconLine, selected1) ==
            InfoTarget(args, s2, b2, sessions, bacons, sessionLine, baconLine, selected2)
    ensures var r := InfoTarget(args, s1, b1, sessions, bacons, sessionLine, baconLine, selected1);
      r.Ok? ==>
        r.value.Some? &&
        (r.value.value.SessionTarget? ==> HasPrefix(r.value.value.session.id, args[0])) &&
        (r.value.value.BaconTarget? ==>
          HasPrefix(r.value.value.bacon.id, args[0]) && sessions.Ok? &&
          forall s :: s in sessions.value ==> !HasPrefix(s.id, args[0]))
  {
  }

  /**
   * Without an argument, an active session that is still listed is looked
   * up again as a session; when no other listed session id extends its
   * id, the very same session is described.
   */
  lemma ActiveSessionReresolved(s: Session, b: Option<Bacon>, ss: seq<Session>, bacons: Outcome<seq<Bacon>>,
                                sessionLine: Session -> string, baconLine: Bacon -> string, selected: string)
    requires s in ss
    ensures var r := InfoTarget([], Some(s), b, Ok(ss), bacons, sessionLine, baconLine, selected);
      r.Ok? && r.value.Some? && r.value.value.SessionTarget? && HasPrefix(r.value.value.session.id, s.id)
    ensures (forall x :: x in ss && HasPrefix(x.id, s.id) ==> x == s) ==>
      InfoTarget([], Some(s), b, Ok(ss), bacons, sessionLine, baconLine, selected) == Ok(Some(SessionTarget(s)))
  {
    assert HasPrefix(s.id, s.id);
  }

  /** The user picks when there is no argument and no active target, and only then does the pick matter. */
  lemma PickOnlyWithoutTarget(args: seq<string>, activeSession: Option<Session>, activeBacon: Option<Bacon>,
                              sessions: Outcome<seq<Session>>, bacons: Outcome<seq<Bacon>>,
                              sessionLine: Session -> string, baconLine: Bacon -> string, selected1: string, selected2: string)
    ensures |args| == 0 && activeSession.None? && activeBacon.None? ==>
      InfoTarget(args, activeSession, activeBacon, sessions, bacons, sessionLine, baconLine, selected1) ==
      Selection(sessions, bacons, sessionLine, baconLine, selected1)
    ensures |args| > 0 || activeSession.Some? || activeBacon.Some? ==>
      InfoTarget(args, activeSession, activeBacon, sessions, bacons, sessionLine, baconLine, selected1) ==
      InfoTarget(args, activeSession, activeBacon, sessions, bacons, sessionLine, baconLine, selected2)
  {
  }

  /**
   * The detail lines of a session. Durations are written by
   * `durationText` (time.Duration.String) and times by
   * `dateDelta(time, wide, future)` (FormatDateDelta).
   */
  function SessionDetails(s: Session, durationText: int -> string, dateDelta: (int, bool, bool) -> string): seq<string>
  {
    ["        Session ID: " + s.id,
     "              Name: " + s.name,
     "          Hostname: " + s.hostname,
     "              UUID: " + s.uuid,
     "          Username: " + s.username,
     "               UID: " + s.uid,
     "               GID: " + s.gid,
     "               PID: " + Itoa(s.pid),
     "                OS: " + s.os,
     "           Version: " + s.version,
     "            Locale: " + s.locale,
     "              Arch: " + s.arch,
     "         Active C2: " + s.activeC2,
     "    Remote Address: " + s.remoteAddress,
     "         Proxy URL: " + s.proxyUrl,
     "Reconnect Interval: " + durationText(s.reconnectInterval),
     "     First Contact: " + dateDelta(s.firstContact, true, false),
     "      Last Checkin: " + dateDelta(s.lastCheckin, true, false)]
  }

  /** The detail lines of a bacon, its next check-in as a time to come. */
  function BaconDetails(b: Bacon, durationText: int -> string, dateDelta: (int, bool, bool) -> string): seq<string>
  {
    ["         Bacon ID: " + b.id,
     "              Name: " + b.name,
     "          Hostname: " + b.hostname,
     "              UUID: " + b.uuid,
     "          Username: " + b.username,
     "               UID: " + b.uid,
     "               GID: " + b.gid,
     "               PID: " + Itoa(b.pid),
     "                OS: " + b.os,
     "           Version: " + b.version,
     "            Locale: " + b.locale,
     "              Arch: " + b.arch,
     "         Active C2: " + b.activeC2,
     "    Remote Address: " + b.remoteAddress,
     "         Proxy URL: " + b.proxyUrl,
     "          Interval: " + durationText(b.interval),
     "            Jitter: " + durationText(b.jitter),
     "     First Contact: " + dateDelta(b.firstContact, true, false),
     "      Last Checkin: " + dateDelta(b.lastCheckin, true, false),
     "      Next Checkin: " + dateDelta(b.nextCheckin, true, true)]
  }

  const NoTarget := "No target session, see `help info`"

  /**
   * InfoCmd: a resolution error is printed and nothing else; a session's
   * details are printed, else a bacon's, else that there is no target.
   * Nothing but the output changes.
   */
  method InfoCmd(con: Console, args: seq<string>, sessions: Outcome<seq<Session>>, bacons: Outcome<seq<Bacon>>,
                 sessionLine: Session -> string, baconLine: Bacon -> string, selected: string,
                 durationText: int -> string, dateDelta: (int, bool, bool) -> string)
    modifies con
    ensures con.OnlyLogged() && con.rpcs == old(con.rpcs)
    ensures match InfoTarget(args, old(con.activeSession), old(con.activeBacon), sessions, bacons, sessionLine, baconLine, selected)
      case Fail(e) => con.output == old(con.output) + [ErrorText(e)]
      case Ok(None) => con.output == old(con.output) + [NoTarget]
      case Ok(Some(SessionTarget(s))) => con.output == old(con.output) + SessionDetails(s, durationText, dateDelta)
      case Ok(Some(BaconTarget(b))) => con.output == old(con.output) + BaconDetails(b, durationText, dateDelta)
  {
    var session, bacon := con.activeSession, con.activeBacon;
    var found: Outcome<Option<Target>>;
    if |args| > 0 {
      var r := SessionOrBaconByID(args[0], sessions, bacons);
      found := Found(r);
    } else if session.Some? || bacon.Some? {
      var currId := "";
      if session.Some? {
        currId := session.value.id;
      } else {
        currId := bacon.value.id;
      }
      var r := SessionOrBaconByID(currId, sessions, bacons);
      found := Found(r);
    } else {
      found := SelectSessionOrBacon(sessions, bacons, sessionLine, baconLine, selected);
    }
    if found.Fail? {
      con.Print(ErrorText(found.error));
      return;
    }
    PrintDetails(con, found.value, durationText, dateDelta);
  }

  /** The second half of InfoCmd: the details of the resolved target, or that there is none. */
  method PrintDetails(con: Console, t: Option<Target>, durationText: int -> string, dateDelta: (int, bool, bool) -> string)
    modifies con
    ensures con.OnlyLogged() && con.rpcs == old(con.rpcs)
    ensures match t
      case None => con.output == old(con.output) + [NoTarget]
      case Some(SessionTarget(s)) => con.output == old(con.output) + SessionDetails(s, durationText, dateDelta)
      case Some(BaconTarget(b)) => con.output == old(con.output) + BaconDetails(b, durationText, dateDelta)
  {
    if t.None? {
      con.Print(NoTarget);
      return;
    }
    var lines := match t.value
      case SessionTarget(s) => SessionDetails(s, durationText, dateDelta)
      case BaconTarget(b) => BaconDetails(b, durationText, dateDelta);
    con.PrintLines(lines);
  }

  /**
   * The line `getpid`, `getuid` or `getgid` prints: the session's field
   * when a session is active, else the bacon's; nothing without a target.
   */
  function TargetField(s: Option<Session>, b: Option<Bacon>, ofSession: Session -> string, ofBacon: Bacon -> string): (r: seq<string>)
    ensures |r| <= 1
    ensures r != [] <==> s.Some? || b.Some?
    ensures s.Some? ==> r == [ofSession(s.value)]
  {
    if s.Some? then [ofSession(s.value)]
    else if b.Some? then [ofBacon(b.value)]
    else []
  }

  function SessionPid(s: Session): string { Itoa(s.pid) }
  function BaconPid(b: Bacon): string { Itoa(b.pid) }
  function SessionUid(s: Session): string { s.uid }
  function BaconUid(b: Bacon): string { b.uid }
  function SessionGid(s: Session): string { s.gid }
  function BaconGid(b: Bacon): string { b.gid }

  /** One field of the active target printed, the session preferred. */
  method PrintTargetField(con: Console, ofSession: Session -> string, ofBacon: Bacon -> string)
    modifies con
    ensures con.OnlyLogged() && con.rpcs == old(con.rpcs)
    ensures con.output == old(con.output) + TargetField(old(con.activeSession), old(con.activeBacon), ofSession, ofBacon)
  {
    var session, bacon := con.activeSession, con.activeBacon;
    if session.None? && bacon.None? {
      return;
    }
    if session.Some? {
      con.Print(ofSession(session.value));
    } else {
      con.Print(ofBacon(bacon.value));
    }
  }

  method PIDCmd(con: Console)
    modifies con
    ensures con.OnlyLogged() && con.rpcs == old(con.rpcs)
    ensures con.output == old(con.output) + TargetField(old(con.activeSession), old(con.activeBacon), SessionPid, BaconPid)
  {
    PrintTargetField(con, SessionPid, BaconPid);
  }

  method UIDCmd(con: Console)
    modifies con
    ensures con.OnlyLogged() && con.rpcs == old(con.rpcs)
    ensures con.output == old(con.output) + TargetField(old(con.activeSession), old(con.activeBacon), SessionUid, BaconUid)
  {
    PrintTargetField(con, SessionUid, BaconUid);
  }

  method GIDCmd(con: Console)
    modifies con
    ensures con.OnlyLogged() && con.rpcs == old(con.rpcs)
    ensures con.output == old(con.output) + TargetField(old(con.activeSession), old(con.activeBacon), SessionGid, BaconGid)
  {
    PrintTargetField(con, SessionGid, BaconGid);
  }

  /** sliverpb.CurrentTokenOwner: the implant's reply and the owner it names. */
  datatype TokenOwner = TokenOwner(response: Option<Response>, output: string)

  /** PrintTokenOwner: the reply's error when it has one, else the owner. */
  function TokenOwnerLine(cto: TokenOwner): (line: string)
    ensures cto.response.Some? && cto.response.value.err != "" ==> line == cto.response.value.err
    ensures !(cto.response.Some? && cto.response.value.err != "") ==> HasPrefix(line, "Current Token ID: ")
  {
    if cto.response.Some? && cto.response.value.err != "" then cto.response.value.err
    else "Current Token ID: " + cto.output
  }

  /** Whether the active target runs Windows (the session's OS when a session is active). */
  function TargetIsWindows(s: Option<Session>, b: Option<Bacon>): bool {
    if s.Some? then s.value.os == "windows"
    else b.Some? && b.value.os == "windows"
  }

  /**
   * WhoamiCmd: with a target, its user is printed; only a Windows target
   * is asked for its token owner. An asynchronous reply leaves a callback
   * under its task id and prints `asyncNote`, the lines PrintAsyncResponse
   * writes for it; a synchronous one is printed at once.
   */
  method WhoamiCmd(con: Console, timeout: int, ctoReply: Outcome<TokenOwner>, asyncNote: seq<string>)
    modifies con
    ensures con.activeSession == old(con.activeSession) && con.activeBacon == old(con.activeBacon)
    ensures con.socks == old(con.socks) && con.runs == old(con.runs)
    ensures old(con.activeSession).None? && old(con.activeBacon).None? ==>
      con.output == old(con.output) && con.rpcs == old(con.rpcs) && con.callbacks == old(con.callbacks)
    ensures old(con.activeSession).Some? || old(con.activeBacon).Some? ==>
      var s, b := old(con.activeSession), old(con.activeBacon);
      var logon := "Logon ID: " + (if s.Some? then s.value.username else b.value.username);
      if !TargetIsWindows(s, b) then
        con.output == old(con.output) + [logon] && con.rpcs == old(con.rpcs) && con.callbacks == old(con.callbacks)
      else
        con.rpcs == old(con.rpcs) + [CurrentTokenOwnerCall(TargetRequest(s, b, timeout))] &&
        match ctoReply
        case Fail(e) =>
          con.output == old(con.output) + [logon, ErrorText(e)] && con.callbacks == old(con.callbacks)
        case Ok(cto) =>
          if cto.response.Some? && cto.response.value.async then
            con.output == old(con.output) + [logon] + asyncNote &&
            con.callbacks == old(con.callbacks)[cto.response.value.taskId := PrintTokenOwnerCallback]
          else
            con.output == old(con.output) + [logon, TokenOwnerLine(cto)] && con.callbacks == old(con.callbacks)
  {
    var session, bacon := con.activeSession, con.activeBacon;
    if session.None? && bacon.None? {
      return;
    }
    var isWin := false;
    if session.Some? {
      con.Print("Logon ID: " + session.value.username);
      if session.value.os == "windows" {
        isWin := true;
      }
    } else {
      con.Print("Logon ID: " + bacon.value.username);
      if bacon.value.os == "windows" {
        isWin := true;
      }
    }
    if isWin {
      con.Call(CurrentTokenOwnerCall(TargetRequest(session, bacon, timeout)));
      if ctoReply.Fail? {
        con.Print(ErrorText(ctoReply.error));
        return;
      }
      var cto := ctoReply.value;
      if cto.response.Some? && cto.response.value.async {
        con.AddCallback(cto.response.value.taskId, PrintTokenOwnerCallback);
        con.PrintLines(asyncNote);
      } else {
        con.Print(TokenOwnerLine(cto));
      }
    }
  }

  /** The whoami callback, run when the task's result arrives: an undecodable result is reported, else the owner printed. */
  method TokenOwnerCallback(con: Console, decoded: Outcome<TokenOwner>)
    modifies con
    ensures con.OnlyLogged() && con.rpcs == old(con.rpcs)
    ensures decoded.Fail? ==> con.output == old(con.output) + ["Failed to decode response " + ErrorText(decoded.error)]
    ensures decoded.Ok? ==> con.output == old(con.output) + [TokenOwnerLine(decoded.value)]
  {
    if decoded.Fail? {
      con.Print("Failed to decode response " + ErrorText(decoded.error));
      return;
    }
    con.Print(TokenOwnerLine(decoded.value));
  }
}
