/**
 * `kill` (client/command/kill/kill.go): ask the server to kill the active
 * session or bacon, after confirmation. Killing a session first drops the
 * socks proxies that run through it.
 */
module ClientKill {
  import opened Common
  import opened Records
  import opened ClientState
  import RpcKill

  /** The proxies that do not run through the session. */
  function OfOtherSessions(sessionId: string): SocksProxy -> bool {
    (p: SocksProxy) => p.sessionId != sessionId
  }

  /** The socks proxies that do not run through the session, in registry order. */
  function SocksWithout(socks: seq<SocksProxy>, sessionId: string): (r: seq<SocksProxy>)
    ensures forall p :: p in r <==> p in socks && p.sessionId != sessionId
  {
    Filter(socks, OfOtherSessions(sessionId))
  }

  /** The kill request for a session: synchronous, routed by session id. */
  function SessionKillReq(s: Session, timeout: int, force: bool): KillReq {
    KillReq(Request(false, timeout, "", s.id), force)
  }

  /** The kill request for a bacon: routed by bacon id. */
  function BaconKillReq(b: Bacon, timeout: int, force: bool): KillReq {
    KillReq(Request(false, timeout, b.id, ""), force)
  }

  /**
   * The server queues a bacon's kill request as an asynchronous request for
   * exactly that bacon, with the client's timeout and no session id.
   */
  lemma BaconKillRouted(b: Bacon, timeout: int, force: bool)
    ensures var req := RpcKill.RewriteForBacon(BaconKillReq(b, timeout, force).request, b.id);
      req == Request(true, timeout, b.id, "")
  {
  }

  /** Ids are distinct: the proxies before `listed[i]` all keep a different id. */
  lemma {:induction false} EarlierKeep(listed: seq<SocksProxy>, i: int, keep: SocksProxy -> bool)
    requires 0 <= i < |listed|
    requires IdsDistinct(listed)
    ensures Filter(Filter(listed[..i], keep), IdIsNot(listed[i].id)) == Filter(listed[..i], keep)
  {
    var kept := Filter(listed[..i], keep);
    forall k | 0 <= k < |kept|
      ensures IdIsNot(listed[i].id)(kept[k])
    {
      assert kept[k] in listed[..i];
      var m :| 0 <= m < i && listed[m] == kept[k];
    }
    FilterAll(kept, IdIsNot(listed[i].id));
  }

  /** Ids are distinct: removing `listed[i]`'s id from the rest drops exactly that proxy. */
  lemma {:induction false} LaterKeep(listed: seq<SocksProxy>, i: int)
    requires 0 <= i < |listed|
    requires IdsDistinct(listed)
    ensures Filter(listed[i..], IdIsNot(listed[i].id)) == listed[i + 1..]
  {
    var id := listed[i].id;
    var rest := listed[i + 1..];
    assert listed[i..] == [listed[i]] + rest;
    FilterConcat([listed[i]], rest, IdIsNot(id));
    FilterNone([listed[i]], IdIsNot(id));
    forall k | 0 <= k < |rest|
      ensures IdIsNot(id)(rest[k])
    {
      assert rest[k] == listed[i + 1 + k];
    }
    FilterAll(rest, IdIsNot(id));
  }

  /** A proxy `keep` refuses adds nothing to the filtered prefix. */
  lemma FilterDropped(listed: seq<SocksProxy>, i: int, keep: SocksProxy -> bool)
    requires 0 <= i < |listed| && !keep(listed[i])
    ensures Filter(listed[..i + 1], keep) == Filter(listed[..i], keep)
  {
    assert listed[..i + 1] == listed[..i] + [listed[i]];
    FilterSnoc(listed[..i], listed[i], keep);
  }

  /** A proxy `keep` accepts stays where it is. */
  lemma FilterKept(listed: seq<SocksProxy>, i: int, keep: SocksProxy -> bool)
    requires 0 <= i < |listed| && keep(listed[i])
    ensures Filter(listed[..i + 1], keep) + listed[i + 1..] == Filter(listed[..i], keep) + listed[i..]
  {
    assert listed[..i + 1] == listed[..i] + [listed[i]];
    FilterSnoc(listed[..i], listed[i], keep);
    assert listed[i..] == [listed[i]] + listed[i + 1..];
  }

  /** Dropping a session's proxies keeps the registry's ids distinct. */
  lemma SocksWithoutDistinct(socks: seq<SocksProxy>, sessionId: string)
    requires IdsDistinct(socks)
    ensures IdsDistinct(SocksWithout(socks, sessionId))
  {
    FilterPairwise(socks, OfOtherSessions(sessionId), (a: SocksProxy, b: SocksProxy) => a.id != b.id);
  }

  /**
   * Removing the proxy at `listed[i]` by its id, once the earlier proxies of
   * the session are gone, leaves the other proxies untouched.
   */
  lemma RemoveListedAt(listed: seq<SocksProxy>, i: int, keep: SocksProxy -> bool)
    requires 0 <= i < |listed| && !keep(listed[i])
    requires IdsDistinct(listed)
    ensures Filter(Filter(listed[..i], keep) + listed[i..], IdIsNot(listed[i].id)) ==
      Filter(listed[..i + 1], keep) + listed[i + 1..]
  {
    FilterConcat(Filter(listed[..i], keep), listed[i..], IdIsNot(listed[i].id));
    EarlierKeep(listed, i, keep);
    LaterKeep(listed, i);
    FilterDropped(listed, i, keep);
  }

  /** The socks removal loop: every listed proxy of the session is removed by its id. */
  method RemoveSessionSocks(con: Console, sessionId: string)
    requires con.SocksDistinct()
    modifies con
    ensures con.socks == SocksWithout(old(con.socks), sessionId) && con.SocksDistinct()
    ensures con.activeSession == old(con.activeSession) && con.activeBacon == old(con.activeBacon)
    ensures con.callbacks == old(con.callbacks) && con.rpcs == old(con.rpcs)
    ensures con.output == old(con.output) && con.runs == old(con.runs)
  {
    var listed := con.socks;
    var i := 0;
    while i < |listed|
      invariant 0 <= i <= |listed|
      invariant con.socks == Filter(listed[..i], OfOtherSessions(sessionId)) + listed[i..]
      invariant con.activeSession == old(con.activeSession) && con.activeBacon == old(con.activeBacon)
      invariant con.callbacks == old(con.callbacks) && con.rpcs == old(con.rpcs)
      invariant con.output == old(con.output) && con.runs == old(con.runs)
    {
      var p := listed[i];
      if p.sessionId == sessionId {
        RemoveListedAt(listed, i, OfOtherSessions(sessionId));
        con.RemoveSocks(p.id);
      } else {
        FilterKept(listed, i, OfOtherSessions(sessionId));
      }
      i := i + 1;
    }
    assert listed[..i] == listed;
    SocksWithoutDistinct(listed, sessionId);
  }

  /**
   * KillSession: no session is an error; otherwise its socks proxies are
   * dropped and the kill request is sent, and the RPC's error returned.
   */
  method KillSession(con: Console, session: Option<Session>, timeout: int, force: bool, killReply: Option<ClientError>)
    returns (err: Option<ClientError>)
    requires con.SocksDistinct()
    modifies con
    ensures con.SocksDistinct()
    ensures session.None? ==> err == Some(SessionDoesNotExist) && con.socks == old(con.socks) && con.rpcs == old(con.rpcs)
    ensures session.Some? ==>
      err == killReply && con.socks == SocksWithout(old(con.socks), session.value.id) &&
      con.rpcs == old(con.rpcs) + [KillCall(SessionKillReq(session.value, timeout, force))]
    ensures con.activeSession == old(con.activeSession) && con.activeBacon == old(con.activeBacon)
    ensures con.callbacks == old(con.callbacks) && con.output == old(con.output) && con.runs == old(con.runs)
  {
    if session.None? {
      return Some(SessionDoesNotExist);
    }
    RemoveSessionSocks(con, session.value.id);
    con.Call(KillCall(SessionKillReq(session.value, timeout, force)));
    return killReply;
  }

  /** KillBacon: no bacon is an error; otherwise the kill request is sent and the RPC's error returned. */
  method KillBacon(con: Console, bacon: Option<Bacon>, timeout: int, force: bool, killReply: Option<ClientError>)
    returns (err: Option<ClientError>)
    modifies con
    ensures bacon.None? ==> err == Some(SessionDoesNotExist) && con.rpcs == old(con.rpcs)
    ensures bacon.Some? ==> err == killReply && con.rpcs == old(con.rpcs) + [KillCall(BaconKillReq(bacon.value, timeout, force))]
    ensures con.OnlyLogged() && con.output == old(con.output)
  {
    if bacon.None? {
      return Some(SessionDoesNotExist);
    }
    con.Call(KillCall(BaconKillReq(bacon.value, timeout, force)));
    return killReply;
  }

  /** The warning line; KillCmd prints a blank line after it. */
  const KillWarning := "WARNING: This will kill the remote implant process"

  /**
   * KillCmd: the warning is printed; an unconfirmed kill stops there; a
   * failed kill is printed and the target stays active; a successful one
   * is reported and the console is put in the background (no active
   * target). With no active target, an error is printed.
   */
  method KillCmd(con: Console, confirm: bool, timeout: int, force: bool, killReply: Option<ClientError>)
    requires con.SocksDistinct()
    modifies con
    ensures con.SocksDistinct()
    ensures con.callbacks == old(con.callbacks) && con.runs == old(con.runs)
    ensures old(con.activeSession).Some? ==>
      var s := old(con.activeSession).value;
      if !confirm then
        con.output == old(con.output) + [KillWarning, ""] && con.rpcs == old(con.rpcs) && con.socks == old(con.socks) &&
        con.activeSession == old(con.activeSession) && con.activeBacon == old(con.activeBacon)
      else
        con.rpcs == old(con.rpcs) + [KillCall(SessionKillReq(s, timeout, force))] &&
        con.socks == SocksWithout(old(con.socks), s.id) &&
        if killReply.Some? then
          con.output == old(con.output) + [KillWarning, "", ErrorText(killReply.value)] &&
          con.activeSession == old(con.activeSession) && con.activeBacon == old(con.activeBacon)
        else
          con.output == old(con.output) + [KillWarning, "", "Killed " + s.name + " (" + s.id + ")"] &&
          con.activeSession == None && con.activeBacon == None
    ensures old(con.activeSession).None? && old(con.activeBacon).Some? ==>
      var b := old(con.activeBacon).value;
      con.socks == old(con.socks) &&
      if !confirm then
        con.output == old(con.output) + [KillWarning, ""] && con.rpcs == old(con.rpcs) &&
        con.activeSession == old(con.activeSession) && con.activeBacon == old(con.activeBacon)
      else
        con.rpcs == old(con.rpcs) + [KillCall(BaconKillReq(b, timeout, force))] &&
        if killReply.Some? then
          con.output == old(con.output) + [KillWarning, "", ErrorText(killReply.value)] &&
          con.activeSession == old(con.activeSession) && con.activeBacon == old(con.activeBacon)
        else
          con.output == old(con.output) + [KillWarning, "", "Killed " + b.name + " (" + b.id + ")"] &&
          con.activeSession == None && con.activeBacon == None
    ensures old(con.activeSession).None? && old(con.activeBacon).None? ==>
      con.output == old(con.output) + [KillWarning, "", "No active session or bacon"] && con.rpcs == old(con.rpcs) &&
      con.socks == old(con.socks) && con.activeSession == None && con.activeBacon == None
  {
    var session, bacon := con.activeSession, con.activeBacon;
    con.Print(KillWarning);
    con.Print("");
    if session.Some? {
      if !confirm {
        return;
      }
      var err := KillSession(con, session, timeout, force, killReply);
      if err.Some? {
        con.Print(ErrorText(err.value));
        return;
      }
      con.Print("Killed " + session.value.name + " (" + session.value.id + ")");
      con.SetActive(None, None);
      return;
    } else if bacon.Some? {
      if !confirm {
        return;
      }
      var err := KillBacon(con, bacon, timeout, force, killReply);
      if err.Some? {
        con.Print(ErrorText(err.value));
        return;
      }
      con.Print("Killed " + bacon.value.name + " (" + bacon.value.id + ")");
      con.SetActive(None, None);
      return;
    }
    con.Print("No active session or bacon");
  }
}
