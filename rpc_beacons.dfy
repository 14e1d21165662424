/**
 * The operator RPCs on bacons and their tasks (server/rpc/rpc-beacons.go):
 * listing with task counts, lookup, removal, task listing and content,
 * cancel, and the integrity update.
 */
module RpcBeacons {
  import opened Common
  import opened Records
  import opened BaconTable
  import opened TaskTable
  import opened ServerState

  /**
   * A listed bacon with its task counts written in; a count that fails is
   * only logged and the counts written are zero.
   */
  function WithCounts(b: Bacon, ts: seq<BaconTask>, countFails: set<string>): (r: Bacon)
    ensures r.id == b.id
    ensures r.tasksCountCompleted <= r.tasksCount
  {
    CompletedAtMostAll(ts, b.id);
    if b.id in countFails then b.(tasksCount := 0, tasksCountCompleted := 0)
    else b.(tasksCount := CountAll(ts, b.id), tasksCountCompleted := CountCompleted(ts, b.id))
  }

  /**
   * GetBacons. A failed listing is ErrDatabaseFailure; otherwise every bacon
   * is returned, in table order, annotated with its (all, completed) task
   * counts, and a failed count does not fail the listing.
   */
  method GetBacons(srv: Server, listFails: bool, countFails: set<string>) returns (bacons: Option<seq<Bacon>>, err: Option<RpcError>)
    ensures listFails ==> bacons == None && err == Some(ErrDatabaseFailure)
    ensures !listFails ==> err == None && bacons.Some? && |bacons.value| == |srv.bacons|
    ensures !listFails ==> forall k :: 0 <= k < |srv.bacons| ==>
      bacons.value[k] == srv.bacons[k].(tasksCount := bacons.value[k].tasksCount,
                                        tasksCountCompleted := bacons.value[k].tasksCountCompleted) &&
      bacons.value[k].tasksCountCompleted <= bacons.value[k].tasksCount &&
      (srv.bacons[k].id !in countFails ==>
        bacons.value[k].tasksCount == CountAll(srv.tasks, srv.bacons[k].id) &&
        bacons.value[k].tasksCountCompleted == CountCompleted(srv.tasks, srv.bacons[k].id))
  {
    if listFails {
      return None, Some(ErrDatabaseFailure);
    }
    var bs := srv.bacons;
    var id := 0;
    while id < |bs|
      invariant 0 <= id <= |bs| && |bs| == |srv.bacons|
      invariant forall k :: 0 <= k < id ==> bs[k] == WithCounts(srv.bacons[k], srv.tasks, countFails)
      invariant forall k :: id <= k < |bs| ==> bs[k] == srv.bacons[k]
    {
      var all, completed := CountAll(srv.tasks, bs[id].id), CountCompleted(srv.tasks, bs[id].id);
      if bs[id].id in countFails {
        all, completed := 0, 0;
      }
      bs := bs[id := bs[id].(tasksCount := all, tasksCountCompleted := completed)];
      id := id + 1;
    }
    return Some(bs), None;
  }

  /**
   * GetBacon: the row with that id, or ErrDatabaseFailure when there is
   * none or the read fails (`readFails`).
   */
  method GetBacon(srv: Server, id: string, readFails: bool) returns (bacon: Option<Bacon>, err: Option<RpcError>)
    ensures err.None? <==> !readFails && exists k :: 0 <= k < |srv.bacons| && srv.bacons[k].id == id
    ensures err.None? ==> bacon.Some? && bacon.value in srv.bacons && bacon.value.id == id
    ensures err.Some? ==> bacon == None && err == Some(ErrDatabaseFailure)
  {
    var found := FindBacon(srv.bacons, id);
    if found.None? || readFails {
      return None, Some(ErrDatabaseFailure);
    }
    return Some(srv.bacons[found.value]), None;
  }

  /**
   * RmBacon. An unknown id, or a failed read of the bacon
   * (`readFails`), is ErrInvalidBaconID and deletes nothing. The
   * bacon's tasks are deleted first: if that fails nothing is deleted; if
   * the row delete then fails the tasks are already gone.
   */
  method RmBacon(srv: Server, id: string, readFails: bool, taskDeleteFails: bool, baconDeleteFails: bool)
    returns (err: Option<RpcError>)
    requires srv.Valid()
    modifies srv
    ensures srv.Valid()
    ensures srv.events == old(srv.events) && srv.sessions == old(srv.sessions) && srv.deliveries == old(srv.deliveries)
    ensures LookupBacon(old(srv.bacons), id).None? || readFails ==>
      err == Some(ErrInvalidBaconID) && srv.bacons == old(srv.bacons) && srv.tasks == old(srv.tasks)
    ensures LookupBacon(old(srv.bacons), id).Some? && !readFails && taskDeleteFails ==>
      err == Some(ErrDatabaseFailure) && srv.bacons == old(srv.bacons) && srv.tasks == old(srv.tasks)
    ensures LookupBacon(old(srv.bacons), id).Some? && !readFails && !taskDeleteFails ==>
      srv.tasks == WithoutBacon(old(srv.tasks), id) &&
      (baconDeleteFails ==> err == Some(ErrDatabaseFailure) && srv.bacons == old(srv.bacons)) &&
      (!baconDeleteFails ==> err == None && srv.bacons == RemoveBacon(old(srv.bacons), id))
  {
    var found := FindBacon(srv.bacons, id);
    if found.None? || readFails {
      return Some(ErrInvalidBaconID);
    }
    var bacon := srv.bacons[found.value];
    if taskDeleteFails {
      return Some(ErrDatabaseFailure);
    }
    WithoutBaconWellFormed(srv.tasks, bacon.id);
    srv.tasks := WithoutBacon(srv.tasks, bacon.id);
    if baconDeleteFails {
      return Some(ErrDatabaseFailure);
    }
    RemoveBaconEffect(srv.bacons, bacon.id);
    srv.bacons := RemoveBacon(srv.bacons, bacon.id);
    return None;
  }

  /**
   * GetBaconTasks: all tasks of a known bacon in table order; an unknown
   * id, or a failed read of the bacon (`readFails`), is ErrInvalidBaconID.
   * A failed task query (`queryFails`) returns the database error, and the
   * reply that goes with a non-nil error is not delivered.
   */
  method GetBaconTasks(srv: Server, id: string, readFails: bool, queryFails: bool)
    returns (tasks: Option<seq<BaconTask>>, err: Option<RpcError>)
    ensures LookupBacon(srv.bacons, id).None? || readFails ==> tasks == None && err == Some(ErrInvalidBaconID)
    ensures LookupBacon(srv.bacons, id).Some? && !readFails && queryFails ==> tasks == None && err == Some(DatabaseError)
    ensures LookupBacon(srv.bacons, id).Some? && !readFails && !queryFails ==>
      err == None && tasks == Some(TasksOf(srv.tasks, id))
    ensures tasks.Some? ==> forall t :: t in tasks.value <==> t in srv.tasks && t.baconId == id
  {
    var found := FindBacon(srv.bacons, id);
    if found.None? || readFails {
      return None, Some(ErrInvalidBaconID);
    }
    if queryFails {
      return None, Some(DatabaseError);
    }
    return Some(TasksOf(srv.tasks, srv.bacons[found.value].id)), None;
  }

  /**
   * GetBaconTaskContent: the task with that id, or ErrInvalidBaconTaskID
   * when there is none or the read fails (`readFails`).
   */
  method GetBaconTaskContent(srv: Server, id: string, readFails: bool) returns (task: Option<BaconTask>, err: Option<RpcError>)
    ensures err.None? <==> !readFails && exists k :: 0 <= k < |srv.tasks| && srv.tasks[k].id == id
    ensures err.None? ==> task.Some? && task.value in srv.tasks && task.value.id == id
    ensures err.Some? ==> task == None && err == Some(ErrInvalidBaconTaskID)
  {
    var found := FindById(srv.tasks, id);
    if found.None? || readFails {
      return None, Some(ErrInvalidBaconTaskID);
    }
    return Some(srv.tasks[found.value]), None;
  }

  /**
   * CancelBaconTask. An unknown id, or a failed first read (`readFails`),
   * is ErrInvalidBaconTaskID. A PENDING task becomes CANCELED and the
   * re-read task is returned (a failed save is ErrDatabaseFailure and
   * changes nothing). When the re-read fails (`rereadFails`) the task
   * stays CANCELED but the reply is ErrInvalidBaconTaskID. A task in any
   * other state is returned unchanged together with
   * ErrInvalidBaconTaskCancelState.
   */
  method CancelBaconTask(srv: Server, id: string, readFails: bool, saveFails: bool, rereadFails: bool)
    returns (task: Option<BaconTask>, err: Option<RpcError>)
    requires srv.Valid()
    modifies srv
    ensures srv.Valid()
    ensures srv.bacons == old(srv.bacons) && srv.events == old(srv.events)
    ensures srv.sessions == old(srv.sessions) && srv.deliveries == old(srv.deliveries)
    ensures FindById(old(srv.tasks), id).None? || readFails ==>
      task == None && err == Some(ErrInvalidBaconTaskID) && srv.tasks == old(srv.tasks)
    ensures FindById(old(srv.tasks), id).Some? && !readFails ==>
      var k := FindById(old(srv.tasks), id).value;
      if old(srv.tasks)[k].state != Pending then
        task == Some(old(srv.tasks)[k]) && err == Some(ErrInvalidBaconTaskCancelState) && srv.tasks == old(srv.tasks)
      else if saveFails then
        task == None && err == Some(ErrDatabaseFailure) && srv.tasks == old(srv.tasks)
      else if rereadFails then
        srv.tasks == CancelAt(old(srv.tasks), k) && task == None && err == Some(ErrInvalidBaconTaskID)
      else
        srv.tasks == CancelAt(old(srv.tasks), k) && err == None &&
        task == Some(old(srv.tasks)[k].(state := Canceled))
  {
    var found := FindById(srv.tasks, id);
    if found.None? || readFails {
      return None, Some(ErrInvalidBaconTaskID);
    }
    var t := srv.tasks[found.value];
    if t.state == Pending {
      t := t.(state := Canceled);
      if saveFails {
        return None, Some(ErrDatabaseFailure);
      }
      ReplaceByIdAt(srv.tasks, found.value, t);
      CancelLegal(srv.tasks, found.value);
      srv.tasks := ReplaceById(srv.tasks, t);
    } else {
      return Some(t), Some(ErrInvalidBaconTaskCancelState);
    }
    var reread := FindById(srv.tasks, id);
    if reread.None? || rereadFails {
      return None, Some(ErrInvalidBaconTaskID);
    }
    return Some(srv.tasks[reread.value]), None;
  }

  /**
   * UpdateBaconIntegrityInformation: only the named bacon's integrity
   * changes; an unknown id, or a failed read of the bacon (`readFails`),
   * is ErrInvalidBaconID; a failed save returns the database error and
   * changes nothing.
   */
  method UpdateBaconIntegrityInformation(srv: Server, bid: string, integrity: string, readFails: bool, saveFails: bool)
    returns (err: Option<RpcError>)
    requires srv.Valid()
    modifies srv
    ensures srv.Valid()
    ensures srv.tasks == old(srv.tasks) && srv.events == old(srv.events)
    ensures srv.sessions == old(srv.sessions) && srv.deliveries == old(srv.deliveries)
    ensures FindBacon(old(srv.bacons), bid).None? || readFails ==> err == Some(ErrInvalidBaconID) && srv.bacons == old(srv.bacons)
    ensures FindBacon(old(srv.bacons), bid).Some? && !readFails && saveFails ==>
      err == Some(DatabaseError) && srv.bacons == old(srv.bacons)
    ensures FindBacon(old(srv.bacons), bid).Some? && !readFails && !saveFails ==>
      var k := FindBacon(old(srv.bacons), bid).value;
      err == None && srv.bacons == old(srv.bacons)[k := old(srv.bacons)[k].(integrity := integrity)]
  {
    var found := FindBacon(srv.bacons, bid);
    if found.None? || readFails {
      return Some(ErrInvalidBaconID);
    }
    var bacon := srv.bacons[found.value];
    bacon := bacon.(integrity := integrity);
    if saveFails {
      return Some(DatabaseError);
    }
    srv.bacons := Upsert(srv.bacons, bacon);
    return None;
  }
}
