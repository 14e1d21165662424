/**
 * The kill RPC (server/rpc/rpc-kill.go): a live session is sent the kill
 * request without waiting and dropped from the session table; a bacon is
 * queued a kill task addressed to it asynchronously.
 */
module RpcKill {
  import opened Common
  import opened Records
  import opened Strings
  import opened BaconTable
  import opened TaskTable
  import opened ServerState

  /** The name of the kill request message, whose last '.'-separated segment describes the queued task. */
  const KillReqName: string := "KillReq"

  /** The request killBeacon queues: no session, asynchronous, addressed to the bacon; the timeout is kept. */
  function RewriteForBacon(req: Request, bid: string): (r: Request)
    ensures r.sessionId == "" && r.async && r.baconId == bid && r.timeout == req.timeout
  {
    req.(sessionId := "", async := true, baconId := bid)
  }

  /**
   * The task `bacon.Task` inserts for a kill: PENDING, created at `now`,
   * whose request is an envelope of type MsgKillSessionReq carrying the
   * serialized rewritten request.
   */
  function KillTask(bid: string, req: Request, taskId: string, envelopeId: int, now: int): BaconTask {
    var envelope := Envelope(0, MsgKillSessionReq, EncodedRequest(RewriteForBacon(req, bid)));
    BaconTask(taskId, envelopeId, bid, now, Pending, 0, 0, "", EncodedEnvelope(envelope), Opaque([]))
  }

  /**
   * The kill task reaches the bacon: its next empty poll hands it out after
   * every task queued earlier, as a MsgKillSessionReq envelope stamped with
   * the task's envelope id and carrying the rewritten request.
   */
  lemma KillTaskDelivered(ts: seq<BaconTask>, bid: string, req: Request, taskId: string, envelopeId: int, now: int)
    ensures var t := KillTask(bid, req, taskId, envelopeId, now);
      Batch(PendingFor(ts + [t], bid)) == Batch(PendingFor(ts, bid)) +
        [Envelope(envelopeId, MsgKillSessionReq, EncodedRequest(RewriteForBacon(req, bid)))]
  {
    EnqueueThenPoll(ts, KillTask(bid, req, taskId, envelopeId, now), bid);
  }

  /**
   * The description of a queued task is the last '.'-separated segment of
   * its message name; a name without a '.' (as `Name()` of a descriptor
   * is, KillReq among them) describes the task whole.
   */
  lemma KillDescription(name: string)
    requires '.' !in name
    ensures LastSegment(name, '.') == name
  {
  }

  /**
   * Kill. A live session under the request's SessionID takes the session
   * path without consulting the bacon table. Otherwise an unknown BaconID is
   * ErrInvalidBeaconID and queues nothing, as is a failed read of the bacon
   * (`readFails`), and a known one takes the bacon path.
   */
  method Kill(srv: Server, kill: KillReq, taskId: string, envelopeId: int, now: int,
              readFails: bool, insertFails: bool, saveFails: bool)
    returns (err: Option<RpcError>)
    requires srv.Valid()
    requires forall t :: t in srv.tasks ==> t.id != taskId && t.createdAt <= now
    modifies srv
    ensures srv.Valid()
    ensures srv.events == old(srv.events) && srv.bacons == old(srv.bacons)
    ensures kill.request.sessionId in old(srv.sessions) ==>
      err == None && srv.tasks == old(srv.tasks) &&
      srv.sessions == old(srv.sessions) - {kill.request.sessionId} &&
      srv.deliveries == old(srv.deliveries) +
        [Delivery(kill.request.sessionId, MsgKillSessionReq, kill.request.timeout, EncodedKill(kill))]
    ensures kill.request.sessionId !in old(srv.sessions) && (LookupBacon(old(srv.bacons), kill.request.baconId).None? || readFails) ==>
      err == Some(ErrInvalidBeaconID) && srv.tasks == old(srv.tasks) &&
      srv.sessions == old(srv.sessions) && srv.deliveries == old(srv.deliveries)
    ensures kill.request.sessionId !in old(srv.sessions) && LookupBacon(old(srv.bacons), kill.request.baconId).Some? && !readFails ==>
      var t := KillTask(kill.request.baconId, kill.request, taskId, envelopeId, now);
      srv.tasks == (if insertFails then old(srv.tasks) else old(srv.tasks) + [if saveFails then t else t.(description := "KillReq")]) &&
      err == (if insertFails || saveFails then Some(DatabaseError) else None) &&
      srv.sessions == old(srv.sessions) && srv.deliveries == old(srv.deliveries)
  {
    if kill.request.sessionId in srv.sessions {
      var session := srv.sessions[kill.request.sessionId];
      err := KillSession(srv, kill, session);
      return;
    }
    var found := FindBacon(srv.bacons, kill.request.baconId);
    if found.None? || readFails {
      return Some(ErrInvalidBeaconID);
    }
    err := KillBeacon(srv, kill, srv.bacons[found.value], taskId, envelopeId, now, insertFails, saveFails);
  }

  /** killSession: the kill request is handed to the session without waiting and the session is dropped at once. */
  method KillSession(srv: Server, kill: KillReq, session: Session) returns (err: Option<RpcError>)
    requires srv.Valid()
    modifies srv
    ensures srv.Valid() && err == None
    ensures srv.bacons == old(srv.bacons) && srv.tasks == old(srv.tasks) && srv.events == old(srv.events)
    ensures srv.sessions == old(srv.sessions) - {session.id}
    ensures srv.deliveries == old(srv.deliveries) + [Delivery(session.id, MsgKillSessionReq, kill.request.timeout, EncodedKill(kill))]
  {
    var data := EncodedKill(kill);
    var timeout := kill.request.timeout;
    srv.deliveries := srv.deliveries + [Delivery(session.id, MsgKillSessionReq, timeout, data)];
    srv.sessions := srv.sessions - {session.id};
    return None;
  }

  /** Inserting a new task row: a fresh id, created no earlier than any row before it. */
  method InsertTask(srv: Server, task: BaconTask)
    requires srv.Valid()
    requires forall t :: t in srv.tasks ==> t.id != task.id && t.createdAt <= task.createdAt
    modifies srv
    ensures srv.Valid() && srv.tasks == old(srv.tasks) + [task]
    ensures srv.bacons == old(srv.bacons) && srv.events == old(srv.events)
    ensures srv.sessions == old(srv.sessions) && srv.deliveries == old(srv.deliveries)
  {
    AppendWellFormed(srv.tasks, task);
    srv.tasks := srv.tasks + [task];
  }

  /** Saving a task again with its description set: only that row's description changes. */
  method SaveDescription(srv: Server, k: nat, description: string)
    requires srv.Valid() && k < |srv.tasks|
    modifies srv
    ensures srv.Valid()
    ensures srv.tasks == old(srv.tasks)[k := old(srv.tasks)[k].(description := description)]
    ensures srv.bacons == old(srv.bacons) && srv.events == old(srv.events)
    ensures srv.sessions == old(srv.sessions) && srv.deliveries == old(srv.deliveries)
  {
    var t := srv.tasks[k].(description := description);
    ReplaceByIdAt(srv.tasks, k, t);
    SameRowsWellFormed(srv.tasks, srv.tasks[k := t]);
    srv.tasks := ReplaceById(srv.tasks, t);
  }

  /**
   * killBeacon: the request is rewritten to address the bacon
   * asynchronously, a PENDING task carrying it is inserted, and its
   * description is then saved. A failed insert returns the database error
   * with no task queued; a failed save returns it with the task queued
   * undescribed.
   */
  method KillBeacon(srv: Server, kill: KillReq, bacon: Bacon, taskId: string, envelopeId: int, now: int,
                    insertFails: bool, saveFails: bool)
    returns (err: Option<RpcError>)
    requires srv.Valid()
    requires forall t :: t in srv.tasks ==> t.id != taskId && t.createdAt <= now
    modifies srv
    ensures srv.Valid()
    ensures srv.bacons == old(srv.bacons) && srv.events == old(srv.events)
    ensures srv.sessions == old(srv.sessions) && srv.deliveries == old(srv.deliveries)
    ensures var t := KillTask(bacon.id, kill.request, taskId, envelopeId, now);
      srv.tasks == (if insertFails then old(srv.tasks) else old(srv.tasks) + [if saveFails then t else t.(description := "KillReq")]) &&
      err == (if insertFails || saveFails then Some(DatabaseError) else None)
  {
    var request := RewriteForBacon(kill.request, bacon.id);
    var reqData := EncodedRequest(request);
    var task := BaconTask(taskId, envelopeId, bacon.id, now, Pending, 0, 0, "",
                          EncodedEnvelope(Envelope(0, MsgKillSessionReq, reqData)), Opaque([]));
    if insertFails {
      return Some(DatabaseError);
    }
    InsertTask(srv, task);
    var name := LastSegment(KillReqName, '.');
    KillDescription(KillReqName);
    if saveFails {
      return Some(DatabaseError);
    }
    SaveDescription(srv, |srv.tasks| - 1, name);
    UpdateLast(old(srv.tasks), task, task.(description := name));
    return None;
  }
}
