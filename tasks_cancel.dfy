/**
 * `tasks cancel` (client/command/tasks/tasks-cancel.go): cancel a task of
 * the active bacon, named by id or picked from its pending tasks.
 */
module TasksCancel {
  import opened Common
  import opened Records
  import opened ClientState

  /** The test the command applies to a listed task: its state reads "pending". */
  function IsPendingTask(t: BaconTask): bool {
    StateName(t.state) == "pending"
  }

  /**
   * The task whose cancellation is requested, or why there is none: by id,
   * the task the content lookup returned; otherwise the task picked among
   * the bacon's pending tasks (`pick` stands for the interactive picker).
   */
  function TaskToCancel(idArg: string, tasksReply: Outcome<seq<BaconTask>>,
                        pick: seq<BaconTask> -> Outcome<BaconTask>, contentReply: Outcome<BaconTask>): Outcome<BaconTask>
  {
    if idArg != "" then contentReply
    else if tasksReply.Fail? then Fail(tasksReply.error)
    else
      var pending := Filter(tasksReply.value, IsPendingTask);
      if |pending| == 0 then Fail(NoPendingTasks) else pick(pending)
  }

  /**
   * Without an id, only a pending task of the listing can be sent for
   * cancellation, as long as the picker picks from what it is offered; and
   * when no listed task is pending, none is.
   */
  lemma PickedTaskIsPending(tasksReply: Outcome<seq<BaconTask>>, pick: seq<BaconTask> -> Outcome<BaconTask>, contentReply: Outcome<BaconTask>)
    requires forall ts :: pick(ts).Ok? ==> pick(ts).value in ts
    ensures var r := TaskToCancel("", tasksReply, pick, contentReply);
      r.Ok? ==> tasksReply.Ok? && r.value in tasksReply.value && r.value.state == Pending
    ensures tasksReply.Ok? && (forall t :: t in tasksReply.value ==> t.state != Pending) ==>
      TaskToCancel("", tasksReply, pick, contentReply) == Fail(NoPendingTasks)
  {
    if tasksReply.Ok? {
      var pending := Filter(tasksReply.value, IsPendingTask);
      forall t | t in pending ensures t.state == Pending {
        StateNamePending(t.state);
      }
      if forall t :: t in tasksReply.value ==> t.state != Pending {
        forall k | 0 <= k < |tasksReply.value| ensures !IsPendingTask(tasksReply.value[k]) {
          StateNamePending(tasksReply.value[k].state);
        }
        FilterNone(tasksReply.value, IsPendingTask);
      }
    }
  }

  /** The pending-task loop. */
  method PendingTasks(tasks: seq<BaconTask>) returns (pending: seq<BaconTask>)
    ensures pending == Filter(tasks, IsPendingTask)
  {
    pending := [];
    for i := 0 to |tasks|
      invariant pending == Filter(tasks[..i], IsPendingTask)
    {
      assert tasks[..i + 1][..i] == tasks[..i];
      if StateName(tasks[i].state) == "pending" {
        pending := pending + [tasks[i]];
      }
    }
    assert tasks[..|tasks|] == tasks;
  }

  /**
   * TasksCancelCmd: without an active bacon nothing happens. Otherwise the
   * task is looked up (by id, or by listing the bacon's tasks and picking
   * a pending one); a failure is printed; the task found is canceled and
   * the outcome printed.
   */
  method TasksCancelCmd(con: Console, idArg: string, tasksReply: Outcome<seq<BaconTask>>,
                        pick: seq<BaconTask> -> Outcome<BaconTask>, contentReply: Outcome<BaconTask>,
                        cancelReply: Outcome<BaconTask>)
    modifies con
    ensures con.OnlyLogged()
    ensures old(con.activeBacon).None? ==> con.output == old(con.output) && con.rpcs == old(con.rpcs)
    ensures old(con.activeBacon).Some? ==>
      var lookup := if idArg == "" then GetBaconTasksCall(old(con.activeBacon).value.id) else GetBaconTaskContentCall(idArg);
      match TaskToCancel(idArg, tasksReply, pick, contentReply)
      case Fail(e) =>
        con.rpcs == old(con.rpcs) + [lookup] && con.output == old(con.output) + [ErrorText(e)]
      case Ok(task) =>
        con.rpcs == old(con.rpcs) + [lookup, CancelBaconTaskCall(task.id)] &&
        con.output == old(con.output) + [if cancelReply.Fail? then ErrorText(cancelReply.error) else "Task " + cancelReply.value.id + " canceled"]
  {
    if con.activeBacon.None? {
      return;
    }
    var bacon := con.activeBacon.value;
    var task: BaconTask;
    if idArg == "" {
      con.Call(GetBaconTasksCall(bacon.id));
      if tasksReply.Fail? {
        con.Print(ErrorText(tasksReply.error));
        return;
      }
      var tasks := PendingTasks(tasksReply.value);
      if |tasks| == 0 {
        con.Print(ErrorText(NoPendingTasks));
        return;
      }
      var picked := pick(tasks);
      if picked.Fail? {
        con.Print(ErrorText(picked.error));
        return;
      }
      task := picked.value;
    } else {
      con.Call(GetBaconTaskContentCall(idArg));
      if contentReply.Fail? {
        con.Print(ErrorText(contentReply.error));
        return;
      }
      task := contentReply.value;
    }
    con.Call(CancelBaconTaskCall(task.id));
    if cancelReply.Fail? {
      con.Print(ErrorText(cancelReply.error));
      return;
    }
    con.Print("Task " + cancelReply.value.id + " canceled");
  }
}
