/**
 * The server's handlers for messages from asynchronous implants:
 * registration, and the check-in that either polls for pending tasks or
 * returns results (server/handlers/beacons.go).
 */
module Handlers {
  import opened Common
  import opened Records
  import opened BaconTable
  import opened TaskTable
  import opened ServerState

  /** The row a registration starts from: the stored row, or a fresh one carrying only the id. */
  function RegistrationBase(bs: seq<Bacon>, id: string): (b: Bacon)
    ensures b.id == id
  {
    match FindBacon(bs, id)
    case None => NewBacon(id)
    case Some(i) => bs[i]
  }

  /**
   * The row after registration: every descriptive field comes from the
   * message and the connection and the next check-in is due
   * `msg.nextCheckin` seconds after `now`; id, integrity, liveness and task
   * counts are those of `existing`.
   */
  function Registered(existing: Bacon, msg: BaconRegister, conn: ImplantConnection, now: int): (b: Bacon)
    ensures b.id == existing.id && b.integrity == existing.integrity && b.isDead == existing.isDead
    ensures b.tasksCount == existing.tasksCount && b.tasksCountCompleted == existing.tasksCountCompleted
    ensures b.nextCheckin == now + msg.nextCheckin
  {
    var r := msg.register;
    existing.(name := r.name, hostname := r.hostname, uuid := r.uuid, username := r.username,
              uid := r.uid, gid := r.gid, os := r.os, arch := r.arch,
              transport := conn.transport, remoteAddress := conn.remoteAddress, pid := r.pid,
              filename := r.filename, lastCheckin := conn.lastMessage, version := r.version,
              reconnectInterval := r.reconnectInterval, activeC2 := r.activeC2,
              proxyUrl := r.proxyUrl, locale := r.locale,
              interval := msg.interval, jitter := msg.jitter, nextCheckin := now + msg.nextCheckin)
  }

  /** The bacon table after a successfully saved registration. */
  function RegisterInto(bs: seq<Bacon>, msg: BaconRegister, conn: ImplantConnection, now: int): seq<Bacon> {
    Upsert(bs, Registered(RegistrationBase(bs, msg.id), msg, conn, now))
  }

  /**
   * Registration is an upsert keyed by the bacon id: afterwards the id is
   * known, its row describes the message, no other id is touched, and an
   * unknown id adds exactly one row while a known one adds none.
   */
  lemma RegisterIntoEffect(bs: seq<Bacon>, msg: BaconRegister, conn: ImplantConnection, now: int)
    requires UniqueBaconIds(bs)
    ensures var r := RegisterInto(bs, msg, conn, now);
      UniqueBaconIds(r) &&
      LookupBacon(r, msg.id) == Some(Registered(RegistrationBase(bs, msg.id), msg, conn, now)) &&
      (forall id :: id != msg.id ==> LookupBacon(r, id) == LookupBacon(bs, id)) &&
      |r| == (if LookupBacon(bs, msg.id).None? then |bs| + 1 else |bs|)
  {
    UpsertEffect(bs, Registered(RegistrationBase(bs, msg.id), msg, conn, now));
  }

  /** An implant that re-sends the same registration leaves the table as one registration did. */
  lemma RegistrationReplayIdempotent(bs: seq<Bacon>, msg: BaconRegister, conn: ImplantConnection, now: int)
    requires UniqueBaconIds(bs)
    ensures RegisterInto(RegisterInto(bs, msg, conn, now), msg, conn, now) == RegisterInto(bs, msg, conn, now)
  {
    var b := Registered(RegistrationBase(bs, msg.id), msg, conn, now);
    var once := RegisterInto(bs, msg, conn, now);
    UpsertEffect(bs, b);
    var k := FindBacon(once, msg.id).value;
    LookupUnique(once, k);
    assert RegistrationBase(once, msg.id) == b;
    assert Registered(b, msg, conn, now) == b;
    UpsertIdempotent(bs, b);
  }

  /**
   * baconRegisterHandler. A message that fails to decode, or a lookup error
   * other than not-found, aborts with no write and no event. Otherwise the
   * row is upserted (unless the save fails, which is only logged) and one
   * registration event is published either way. There is never a reply.
   */
  method BaconRegisterHandler(srv: Server, msg: Option<BaconRegister>, conn: ImplantConnection, now: int,
                              lookupFails: bool, saveFails: bool) returns (reply: Option<Envelope>)
    requires srv.Valid()
    modifies srv
    ensures srv.Valid() && reply == None
    ensures srv.tasks == old(srv.tasks) && srv.sessions == old(srv.sessions) && srv.deliveries == old(srv.deliveries)
    ensures msg.None? || lookupFails ==> srv.bacons == old(srv.bacons) && srv.events == old(srv.events)
    ensures msg.Some? && !lookupFails ==>
      var b := Registered(RegistrationBase(old(srv.bacons), msg.value.id), msg.value, conn, now);
      srv.bacons == (if saveFails then old(srv.bacons) else RegisterInto(old(srv.bacons), msg.value, conn, now)) &&
      srv.events == old(srv.events) + [BaconRegistered(b)]
  {
    if msg.None? {
      return None;
    }
    var reg := msg.value;
    if lookupFails {
      return None;
    }
    var bacon := RegistrationBase(srv.bacons, reg.id);
    bacon := Registered(bacon, reg, conn, now);
    if !saveFails {
      RegisterIntoEffect(srv.bacons, reg, conn, now);
      srv.bacons := Upsert(srv.bacons, bacon);
    }
    srv.events := srv.events + [BaconRegistered(bacon)];
    return None;
  }

  /**
   * The drain loop of an empty poll: each pending task of the bacon, oldest
   * first, whose request decodes is stamped with its envelope id, appended
   * to the batch and updated to SENT; one that does not decode is skipped
   * and keeps its state; a failed update is only logged.
   */
  method DrainPending(srv: Server, bid: string, now: int, failedUpdates: set<string>) returns (batch: seq<Envelope>)
    requires srv.Valid()
    modifies srv
    ensures srv.Valid()
    ensures batch == Batch(PendingFor(old(srv.tasks), bid))
    ensures srv.tasks == Drained(old(srv.tasks), bid, now, failedUpdates)
    ensures srv.bacons == old(srv.bacons) && srv.events == old(srv.events)
    ensures srv.sessions == old(srv.sessions) && srv.deliveries == old(srv.deliveries)
  {
    ghost var t0 := srv.tasks;
    var pendingTasks := PendingFor(srv.tasks, bid);
    batch := [];
    var i := 0;
    while i < |pendingTasks|
      invariant 0 <= i <= |pendingTasks|
      invariant batch == Batch(pendingTasks[..i])
      invariant srv.tasks == MarkSent(t0, SentIds(pendingTasks[..i], failedUpdates), now)
      invariant srv.bacons == old(srv.bacons) && srv.events == old(srv.events)
      invariant srv.sessions == old(srv.sessions) && srv.deliveries == old(srv.deliveries)
    {
      var pendingTask := pendingTasks[i];
      MarkSentStep(t0, bid, i, now, failedUpdates);
      BatchStep(pendingTasks, i);
      var envelope := DecodeEnvelope(pendingTask.request);
      if envelope.Some? {
        batch := batch + [envelope.value.(id := pendingTask.envelopeId)];
        var sent := pendingTask.(state := Sent, sentAt := now);
        if pendingTask.id !in failedUpdates {
          srv.tasks := ReplaceById(srv.tasks, sent);
        }
      }
      i := i + 1;
    }
    WholePrefix(pendingTasks);
    DrainedLegal(t0, bid, now, failedUpdates);
  }

  /**
   * baconTaskResults: for each returned envelope, the bacon's task with that
   * envelope id becomes COMPLETED with the envelope's data as response, and
   * one result event is published per successful update; unmatched
   * envelopes are skipped, and so is every row in `failedUpdates`: the rows
   * whose read by envelope id or whose update fails, since both failures
   * are only logged and the loop moves on to the next envelope.
   */
  method BaconTaskResults(srv: Server, bid: string, envs: seq<Envelope>, now: int, failedUpdates: set<string>)
    requires srv.Valid()
    modifies srv
    ensures srv.Valid()
    ensures var r := RecordResults(old(srv.tasks), bid, envs, now, failedUpdates);
      srv.tasks == r.tasks && srv.events == old(srv.events) + r.events
    ensures srv.bacons == old(srv.bacons) && srv.sessions == old(srv.sessions) && srv.deliveries == old(srv.deliveries)
  {
    ghost var t0 := srv.tasks;
    ghost var e0 := srv.events;
    var i := 0;
    while i < |envs|
      invariant 0 <= i <= |envs|
      invariant srv.tasks == RecordResults(t0, bid, envs[..i], now, failedUpdates).tasks
      invariant srv.events == e0 + RecordResults(t0, bid, envs[..i], now, failedUpdates).events
      invariant WellFormed(srv.tasks)
      invariant srv.bacons == old(srv.bacons) && srv.sessions == old(srv.sessions) && srv.deliveries == old(srv.deliveries)
    {
      ghost var prev := RecordResults(t0, bid, envs[..i], now, failedUpdates);
      RecordResultsStep(t0, bid, envs, i, now, failedUpdates);
      RecordResultsWellFormed(t0, bid, envs[..i + 1], now, failedUpdates);
      RecordEnvelope(srv, bid, envs[i], now, failedUpdates);
      AppendAssociates(e0, prev.events, RecordOne(prev.tasks, bid, envs[i], now, failedUpdates).events);
      i := i + 1;
    }
    WholePrefix(envs);
  }

  /** The loop body of baconTaskResults for one envelope. */
  method RecordEnvelope(srv: Server, bid: string, envelope: Envelope, now: int, failedUpdates: set<string>)
    requires WellFormed(srv.tasks)
    modifies srv
    ensures var step := RecordOne(old(srv.tasks), bid, envelope, now, failedUpdates);
      srv.tasks == step.tasks && srv.events == old(srv.events) + step.events
    ensures srv.bacons == old(srv.bacons) && srv.sessions == old(srv.sessions) && srv.deliveries == old(srv.deliveries)
  {
    var found := FindByEnvelope(srv.tasks, bid, envelope.id);
    if found.Some? {
      var dbTask := srv.tasks[found.value].(state := Completed, completedAt := now, response := envelope.data);
      if dbTask.id !in failedUpdates {
        ReplaceByIdAt(srv.tasks, found.value, dbTask);
        srv.tasks := ReplaceById(srv.tasks, dbTask);
        srv.events := srv.events + [BaconTaskResult(dbTask)];
      }
    }
  }

  /**
   * baconTasksHandler. A message that fails to decode gets no reply. A
   * message carrying results records them and gets no reply, so no pending
   * task is handed out in that round trip. An empty poll drains the
   * bacon's pending tasks and replies with the batch, empty or not, unless
   * the pending query itself fails.
   */
  method BaconTasksHandler(srv: Server, msg: Option<BaconTasksMsg>, now: int,
                           queryFails: bool, failedUpdates: set<string>) returns (reply: Option<Envelope>)
    requires srv.Valid()
    modifies srv
    ensures srv.Valid()
    ensures srv.bacons == old(srv.bacons) && srv.sessions == old(srv.sessions) && srv.deliveries == old(srv.deliveries)
    ensures msg.None? ==> reply == None && srv.tasks == old(srv.tasks) && srv.events == old(srv.events)
    ensures msg.Some? && msg.value.tasks != [] ==>
      var r := RecordResults(old(srv.tasks), msg.value.id, msg.value.tasks, now, failedUpdates);
      reply == None && srv.tasks == r.tasks && srv.events == old(srv.events) + r.events
    ensures msg.Some? && msg.value.tasks == [] && queryFails ==>
      reply == None && srv.tasks == old(srv.tasks) && srv.events == old(srv.events)
    ensures msg.Some? && msg.value.tasks == [] && !queryFails ==>
      reply == Some(Envelope(0, MsgBaconTasks, EncodedTasks(Batch(PendingFor(old(srv.tasks), msg.value.id))))) &&
      srv.tasks == Drained(old(srv.tasks), msg.value.id, now, failedUpdates) &&
      srv.events == old(srv.events)
  {
    if msg.None? {
      return None;
    }
    var baconTasks := msg.value;
    if 0 < |baconTasks.tasks| {
      BaconTaskResults(srv, baconTasks.id, baconTasks.tasks, now, failedUpdates);
      return None;
    }
    if queryFails {
      return None;
    }
    var tasks := DrainPending(srv, baconTasks.id, now, failedUpdates);
    return Some(Envelope(0, MsgBaconTasks, EncodedTasks(tasks)));
  }
}
