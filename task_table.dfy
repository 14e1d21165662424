/**
 * The bacon task table as a value: a sequence of task rows in creation
 * order, and the specification functions the server's handlers are proved
 * against: the pending query, the drain performed by an empty poll, the
 * recording of results, the per-bacon counts and the cascade on removal.
 */
module TaskTable {
  import opened Common
  import opened Records

  /** No two rows share a task id. */
  ghost predicate UniqueIds(ts: seq<BaconTask>) {
    forall i, j :: 0 <= i < j < |ts| ==> ts[i].id != ts[j].id
  }

  /** Rows appear in non-decreasing order of creation time. */
  ghost predicate CreationOrdered(ts: seq<BaconTask>) {
    forall i, j :: 0 <= i < j < |ts| ==> ts[i].createdAt <= ts[j].createdAt
  }

  ghost predicate WellFormed(ts: seq<BaconTask>) {
    UniqueIds(ts) && CreationOrdered(ts)
  }

  /** Two tables have the same rows up to a change of state and its bookkeeping. */
  ghost predicate SameRows(ts: seq<BaconTask>, us: seq<BaconTask>) {
    |ts| == |us| &&
    forall k :: 0 <= k < |ts| ==>
      us[k].id == ts[k].id && us[k].baconId == ts[k].baconId &&
      us[k].envelopeId == ts[k].envelopeId && us[k].createdAt == ts[k].createdAt
  }

  lemma SameRowsWellFormed(ts: seq<BaconTask>, us: seq<BaconTask>)
    requires WellFormed(ts) && SameRows(ts, us)
    ensures WellFormed(us)
  {
  }

  predicate IsPendingFor(bid: string, t: BaconTask) {
    t.baconId == bid && t.state == Pending
  }

  function PendingOf(bid: string): BaconTask -> bool {
    (t: BaconTask) => IsPendingFor(bid, t)
  }

  function OfBacon(bid: string): BaconTask -> bool {
    (t: BaconTask) => t.baconId == bid
  }

  function CompletedOf(bid: string): BaconTask -> bool {
    (t: BaconTask) => t.baconId == bid && t.state == Completed
  }

  function NotOfBacon(bid: string): BaconTask -> bool {
    (t: BaconTask) => t.baconId != bid
  }

  /** The pending query: the bacon's PENDING tasks in table (creation) order. */
  function PendingFor(ts: seq<BaconTask>, bid: string): seq<BaconTask> {
    Filter(ts, PendingOf(bid))
  }

  /** FIFO: the pending query hands tasks out oldest first. */
  lemma PendingForFifo(ts: seq<BaconTask>, bid: string)
    requires CreationOrdered(ts)
    ensures CreationOrdered(PendingFor(ts, bid))
  {
    FilterPairwise(ts, PendingOf(bid), (a: BaconTask, b: BaconTask) => a.createdAt <= b.createdAt);
  }

  /** The pending tasks of one bacon have distinct ids. */
  lemma PendingForUnique(ts: seq<BaconTask>, bid: string)
    requires UniqueIds(ts)
    ensures UniqueIds(PendingFor(ts, bid))
  {
    FilterPairwise(ts, PendingOf(bid), (a: BaconTask, b: BaconTask) => a.id != b.id);
  }

  /** A gorm update keyed by task id: every row with `t`'s id becomes `t`. */
  function ReplaceById(ts: seq<BaconTask>, t: BaconTask): seq<BaconTask> {
    seq(|ts|, k requires 0 <= k < |ts| => if ts[k].id == t.id then t else ts[k])
  }

  /** With unique ids, an update by id rewrites exactly the one row that has that id. */
  lemma ReplaceByIdAt(ts: seq<BaconTask>, k: nat, t: BaconTask)
    requires UniqueIds(ts) && k < |ts| && ts[k].id == t.id
    ensures ReplaceById(ts, t) == ts[k := t]
  {
  }

  // ---- the drain performed by an empty poll ----

  /** The stored request decodes into an envelope. */
  predicate Decodes(t: BaconTask) {
    DecodeEnvelope(t.request).Some?
  }

  /** The envelope sent to the implant for a task: its decoded request, stamped with the task's envelope id. */
  function Stamped(t: BaconTask): Envelope
    requires Decodes(t)
  {
    DecodeEnvelope(t.request).value.(id := t.envelopeId)
  }

  /**
   * The reply batch for the pending tasks `p`: one stamped envelope per
   * decodable task, in the order of `p`; undecodable tasks are skipped.
   */
  function Batch(p: seq<BaconTask>): (r: seq<Envelope>)
    ensures |r| == |Filter(p, Decodes)|
    ensures forall k :: 0 <= k < |r| ==>
      Decodes(Filter(p, Decodes)[k]) && r[k] == Stamped(Filter(p, Decodes)[k])
    decreases |p|
  {
    if p == [] then []
    else
      var n := |p| - 1;
      Batch(p[..n]) + (if Decodes(p[n]) then [Stamped(p[n])] else [])
  }

  /** Each envelope of the batch carries the envelope id of the task it came from. */
  lemma BatchStamped(p: seq<BaconTask>, k: nat)
    requires k < |Batch(p)|
    ensures Batch(p)[k].id == Filter(p, Decodes)[k].envelopeId
    ensures Filter(p, Decodes)[k] in p && Decodes(Filter(p, Decodes)[k])
  {
    assert Filter(p, Decodes)[k] in Filter(p, Decodes);
  }

  /** One more task extends the batch by its envelope when it decodes. */
  lemma BatchStep(p: seq<BaconTask>, i: nat)
    requires i < |p|
    ensures Batch(p[..i + 1]) == Batch(p[..i]) + (if Decodes(p[i]) then [Stamped(p[i])] else [])
  {
    assert p[..i + 1][..i] == p[..i];
  }

  /** The ids of the tasks a drain marks SENT: decodable pending tasks whose update did not fail. */
  function SentIds(p: seq<BaconTask>, failed: set<string>): set<string> {
    set t | t in p && Decodes(t) && t.id !in failed :: t.id
  }

  function MarkSentRow(t: BaconTask, now: int): BaconTask {
    t.(state := Sent, sentAt := now)
  }

  /** Every row whose id is in `ids` becomes SENT at `now`. */
  function MarkSent(ts: seq<BaconTask>, ids: set<string>, now: int): seq<BaconTask> {
    seq(|ts|, k requires 0 <= k < |ts| => if ts[k].id in ids then MarkSentRow(ts[k], now) else ts[k])
  }

  /** The task table after an empty poll of bacon `bid` at `now`, where updates of the rows in `failed` fail. */
  function Drained(ts: seq<BaconTask>, bid: string, now: int, failed: set<string>): seq<BaconTask> {
    MarkSent(ts, SentIds(PendingFor(ts, bid), failed), now)
  }

  /**
   * One turn of the drain loop: handling the next pending task either marks
   * it SENT by an update keyed by its id, or leaves the table as it was.
   */
  lemma MarkSentStep(ts: seq<BaconTask>, bid: string, i: nat, now: int, failed: set<string>)
    requires UniqueIds(ts)
    requires i < |PendingFor(ts, bid)|
    ensures var p := PendingFor(ts, bid);
      var before := MarkSent(ts, SentIds(p[..i], failed), now);
      MarkSent(ts, SentIds(p[..i + 1], failed), now) ==
        if Decodes(p[i]) && p[i].id !in failed then ReplaceById(before, MarkSentRow(p[i], now)) else before
  {
    var p := PendingFor(ts, bid);
    PendingForUnique(ts, bid);
    assert p[..i + 1] == p[..i] + [p[i]];
    var cond := Decodes(p[i]) && p[i].id !in failed;
    var s0 := SentIds(p[..i], failed);
    var s1 := SentIds(p[..i + 1], failed);
    assert s1 == if cond then s0 + {p[i].id} else s0;
    if cond {
      assert p[i].id !in s0 by {
        forall t | t in p[..i] ensures t.id != p[i].id {
          var j :| 0 <= j < i && p[..i][j] == t;
        }
      }
      assert p[i] in ts;
      var m :| 0 <= m < |ts| && ts[m] == p[i];
      var before := MarkSent(ts, s0, now);
      forall k | 0 <= k < |ts|
        ensures MarkSent(ts, s1, now)[k] == ReplaceById(before, MarkSentRow(p[i], now))[k]
      {
        if ts[k].id == p[i].id {
          assert k == m;
        }
      }
    }
  }

  /** Whether a row is one that the drain marks SENT. */
  predicate DrainMarks(bid: string, failed: set<string>, t: BaconTask) {
    IsPendingFor(bid, t) && Decodes(t) && t.id !in failed
  }

  /**
   * The drain row by row: exactly the bacon's pending, decodable tasks whose
   * update succeeded become SENT with SentAt = now; every other row, the
   * undecodable pending ones included, is left as it was.
   */
  lemma DrainedRows(ts: seq<BaconTask>, bid: string, now: int, failed: set<string>)
    requires UniqueIds(ts)
    ensures |Drained(ts, bid, now, failed)| == |ts|
    ensures forall k :: 0 <= k < |ts| ==>
      Drained(ts, bid, now, failed)[k] ==
        (if DrainMarks(bid, failed, ts[k]) then MarkSentRow(ts[k], now) else ts[k])
  {
    var p := PendingFor(ts, bid);
    forall k | 0 <= k < |ts|
      ensures ts[k].id in SentIds(p, failed) <==> DrainMarks(bid, failed, ts[k])
    {
      if ts[k].id in SentIds(p, failed) {
        var t :| t in p && Decodes(t) && t.id !in failed && t.id == ts[k].id;
        var m :| 0 <= m < |ts| && ts[m] == t;
        assert m == k;
      }
      if DrainMarks(bid, failed, ts[k]) {
        assert ts[k] in p;
      }
    }
  }

  /** The drain only moves tasks from PENDING to SENT and keeps the table well formed. */
  lemma DrainedLegal(ts: seq<BaconTask>, bid: string, now: int, failed: set<string>)
    requires WellFormed(ts)
    ensures SameRows(ts, Drained(ts, bid, now, failed))
    ensures WellFormed(Drained(ts, bid, now, failed))
    ensures forall k :: 0 <= k < |ts| ==>
      LegalTransition(ts[k].state, Drained(ts, bid, now, failed)[k].state)
  {
    DrainedRows(ts, bid, now, failed);
    SameRowsWellFormed(ts, Drained(ts, bid, now, failed));
  }

  /**
   * No duplicate delivery: a task placed in the batch whose update succeeded
   * is no longer pending, so no later poll hands it out again.
   */
  lemma DrainNoRedelivery(ts: seq<BaconTask>, bid: string, now: int, failed: set<string>, t: BaconTask)
    requires UniqueIds(ts)
    requires t in Filter(PendingFor(ts, bid), Decodes) && t.id !in failed
    ensures forall u :: u in PendingFor(Drained(ts, bid, now, failed), bid) ==> u.id != t.id
  {
    DrainedRows(ts, bid, now, failed);
    var d := Drained(ts, bid, now, failed);
    assert t in PendingFor(ts, bid);
    var m :| 0 <= m < |ts| && ts[m] == t;
    assert d[m] == MarkSentRow(t, now);
    forall k | 0 <= k < |d| && k != m
      ensures d[k].id != t.id
    {
      assert d[k].id == ts[k].id;
    }
    NoPendingWithId(d, bid, m, t.id);
  }

  /** A table whose only row with `id` is SENT has no pending task with that id. */
  lemma NoPendingWithId(d: seq<BaconTask>, bid: string, m: int, id: string)
    requires 0 <= m < |d| && d[m].id == id && d[m].state == Sent
    requires forall k :: 0 <= k < |d| && k != m ==> d[k].id != id
    ensures forall u :: u in PendingFor(d, bid) ==> u.id != id
  {
    forall u | u in PendingFor(d, bid)
      ensures u.id != id
    {
      var k :| 0 <= k < |d| && d[k] == u;
    }
  }

  /** The as-written weakness: a pending task whose request does not decode stays PENDING. */
  lemma DrainKeepsUndecodable(ts: seq<BaconTask>, bid: string, now: int, failed: set<string>, k: nat)
    requires UniqueIds(ts)
    requires k < |ts| && !Decodes(ts[k])
    ensures k < |Drained(ts, bid, now, failed)| && Drained(ts, bid, now, failed)[k] == ts[k]
  {
    DrainedRows(ts, bid, now, failed);
  }

  /** Inserting a task with a fresh id, created no earlier than every stored task, keeps the table well formed. */
  lemma AppendWellFormed(ts: seq<BaconTask>, t: BaconTask)
    requires WellFormed(ts)
    requires forall u :: u in ts ==> u.id != t.id && u.createdAt <= t.createdAt
    ensures WellFormed(ts + [t])
  {
    var r := ts + [t];
    forall i, j | 0 <= i < j < |r| ensures r[i].id != r[j].id && r[i].createdAt <= r[j].createdAt {
      if j == |ts| {
        assert r[i] in ts;
      }
    }
  }

  /**
   * A newly queued PENDING task whose request decodes is handed out on the
   * bacon's next empty poll, after every task queued before it.
   */
  lemma EnqueueThenPoll(ts: seq<BaconTask>, t: BaconTask, bid: string)
    requires t.baconId == bid && t.state == Pending && Decodes(t)
    ensures PendingFor(ts + [t], bid) == PendingFor(ts, bid) + [t]
    ensures Batch(PendingFor(ts + [t], bid)) == Batch(PendingFor(ts, bid)) + [Stamped(t)]
  {
    assert (ts + [t])[..|ts|] == ts;
    var p := PendingFor(ts, bid) + [t];
    assert p[..|p| - 1] == PendingFor(ts, bid);
  }

  // ---- recording results ----

  /** db.BaconTaskByEnvelopeID: the first row of bacon `bid` with envelope id `eid`. */
  function FindByEnvelope(ts: seq<BaconTask>, bid: string, eid: int): (r: Option<nat>)
    ensures r.Some? ==> r.value < |ts| && ts[r.value].baconId == bid && ts[r.value].envelopeId == eid
    ensures r.None? ==> forall k :: 0 <= k < |ts| ==> !(ts[k].baconId == bid && ts[k].envelopeId == eid)
  {
    FirstWhere(ts, (t: BaconTask) => t.baconId == bid && t.envelopeId == eid)
  }

  datatype Recorded = Recorded(tasks: seq<BaconTask>, events: seq<Event>)

  function CompletedRow(t: BaconTask, env: Envelope, now: int): BaconTask {
    t.(state := Completed, completedAt := now, response := env.data)
  }

  /**
   * One result envelope: the matched task becomes COMPLETED and one event is
   * published, unless no task matches or the row is in `failed` (its read or
   * its update fails, which the handler only logs).
   */
  function RecordOne(ts: seq<BaconTask>, bid: string, env: Envelope, now: int, failed: set<string>): Recorded {
    match FindByEnvelope(ts, bid, env.id)
    case None => Recorded(ts, [])
    case Some(i) =>
      if ts[i].id in failed then Recorded(ts, [])
      else
        var t := CompletedRow(ts[i], env, now);
        Recorded(ts[i := t], [BaconTaskResult(t)])
  }

  /** All result envelopes of one message, in order. */
  function RecordResults(ts: seq<BaconTask>, bid: string, envs: seq<Envelope>, now: int, failed: set<string>): Recorded
    decreases |envs|
  {
    if envs == [] then Recorded(ts, [])
    else
      var n := |envs| - 1;
      var prev := RecordResults(ts, bid, envs[..n], now, failed);
      var step := RecordOne(prev.tasks, bid, envs[n], now, failed);
      Recorded(step.tasks, prev.events + step.events)
  }

  /** Recording one more envelope records it on top of the earlier ones. */
  lemma RecordResultsStep(ts: seq<BaconTask>, bid: string, envs: seq<Envelope>, i: nat, now: int, failed: set<string>)
    requires i < |envs|
    ensures var prev := RecordResults(ts, bid, envs[..i], now, failed);
      var step := RecordOne(prev.tasks, bid, envs[i], now, failed);
      RecordResults(ts, bid, envs[..i + 1], now, failed) == Recorded(step.tasks, prev.events + step.events)
  {
    assert envs[..i + 1][..i] == envs[..i];
  }

  /**
   * The shape of recording results: rows keep their identity, a row either
   * stays as it was or becomes COMPLETED, only rows of the reporting bacon
   * change, and every published event carries a COMPLETED task of that
   * bacon, at most one per result.
   */
  lemma {:induction false} RecordResultsShape(ts: seq<BaconTask>, bid: string, envs: seq<Envelope>, now: int, failed: set<string>)
    ensures var r := RecordResults(ts, bid, envs, now, failed);
      SameRows(ts, r.tasks) &&
      (forall k :: 0 <= k < |ts| ==> r.tasks[k] == ts[k] || r.tasks[k].state == Completed) &&
      (forall k :: 0 <= k < |ts| && ts[k].baconId != bid ==> r.tasks[k] == ts[k]) &&
      |r.events| <= |envs| &&
      (forall e :: e in r.events ==> e.BaconTaskResult? && e.task.state == Completed && e.task.baconId == bid)
    decreases |envs|
  {
    if envs != [] {
      var n := |envs| - 1;
      RecordResultsShape(ts, bid, envs[..n], now, failed);
    }
  }

  lemma RecordResultsWellFormed(ts: seq<BaconTask>, bid: string, envs: seq<Envelope>, now: int, failed: set<string>)
    requires WellFormed(ts)
    ensures WellFormed(RecordResults(ts, bid, envs, now, failed).tasks)
  {
    RecordResultsShape(ts, bid, envs, now, failed);
    SameRowsWellFormed(ts, RecordResults(ts, bid, envs, now, failed).tasks);
  }

  /** A result that matches the envelope id of one of the bacon's tasks, and whose update succeeds, completes that task with the reported data and publishes exactly one event. */
  lemma RecordOneCompletes(ts: seq<BaconTask>, bid: string, env: Envelope, now: int, failed: set<string>, k: nat)
    requires UniqueIds(ts)
    requires k < |ts| && ts[k].baconId == bid && ts[k].envelopeId == env.id && ts[k].id !in failed
    requires forall j :: 0 <= j < |ts| && j != k ==> !(ts[j].baconId == bid && ts[j].envelopeId == env.id)
    ensures var r := RecordOne(ts, bid, env, now, failed);
      r.tasks == ts[k := CompletedRow(ts[k], env, now)] &&
      r.tasks[k].state == Completed && r.tasks[k].response == env.data &&
      r.events == [BaconTaskResult(r.tasks[k])]
  {
  }

  /** A result whose envelope id matches none of the bacon's tasks changes nothing and publishes nothing. */
  lemma {:induction false} UnmatchedResultsAreNoops(ts: seq<BaconTask>, bid: string, envs: seq<Envelope>, now: int, failed: set<string>)
    requires forall e, k :: e in envs && 0 <= k < |ts| ==> !(ts[k].baconId == bid && ts[k].envelopeId == e.id)
    ensures RecordResults(ts, bid, envs, now, failed) == Recorded(ts, [])
    decreases |envs|
  {
    if envs != [] {
      var n := |envs| - 1;
      assert forall e :: e in envs[..n] ==> e in envs;
      UnmatchedResultsAreNoops(ts, bid, envs[..n], now, failed);
      assert envs[n] in envs;
    }
  }

  /**
   * The as-written weakness of result recording: it does not check that the
   * task was SENT, so a result naming a CANCELED task completes it.
   */
  lemma CanceledTaskCompletedByResult()
    ensures var t := BaconTask("t1", 7, "b1", 0, Canceled, 0, 0, "", Opaque([]), Opaque([]));
      var env := Envelope(7, MsgOther(0), Opaque([1]));
      var r := RecordOne([t], "b1", env, 5, {});
      r.tasks[0].state == Completed && !LegalTransition(t.state, r.tasks[0].state)
  {
  }

  // ---- counts and removal ----

  /** db.CountTasksByBaconID: all of a bacon's tasks. */
  function CountAll(ts: seq<BaconTask>, bid: string): nat {
    |Filter(ts, OfBacon(bid))|
  }

  /** db.CountTasksByBaconID: a bacon's COMPLETED tasks. */
  function CountCompleted(ts: seq<BaconTask>, bid: string): nat {
    |Filter(ts, CompletedOf(bid))|
  }

  lemma {:induction false} FilterStronger(ts: seq<BaconTask>, p: BaconTask -> bool, q: BaconTask -> bool)
    requires forall t :: p(t) ==> q(t)
    ensures |Filter(ts, p)| <= |Filter(ts, q)|
    decreases |ts|
  {
    if ts != [] {
      FilterStronger(ts[..|ts| - 1], p, q);
    }
  }

  /** A bacon never has more completed tasks than tasks. */
  lemma CompletedAtMostAll(ts: seq<BaconTask>, bid: string)
    ensures CountCompleted(ts, bid) <= CountAll(ts, bid)
  {
    FilterStronger(ts, CompletedOf(bid), OfBacon(bid));
  }

  /** The cascade of RmBacon: every task of the bacon is deleted. */
  function WithoutBacon(ts: seq<BaconTask>, bid: string): seq<BaconTask> {
    Filter(ts, NotOfBacon(bid))
  }

  /**
   * After the cascade the bacon has no tasks, nothing pending and zero
   * counts, while every task of every other bacon is still there.
   */
  lemma WithoutBaconEffect(ts: seq<BaconTask>, bid: string)
    ensures CountAll(WithoutBacon(ts, bid), bid) == 0
    ensures CountCompleted(WithoutBacon(ts, bid), bid) == 0
    ensures PendingFor(WithoutBacon(ts, bid), bid) == []
    ensures forall t :: t in ts && t.baconId != bid ==> t in WithoutBacon(ts, bid)
  {
    var w := WithoutBacon(ts, bid);
    assert forall k :: 0 <= k < |w| ==> w[k] in w;
    FilterNone(w, OfBacon(bid));
    FilterNone(w, CompletedOf(bid));
    FilterNone(w, PendingOf(bid));
  }

  lemma WithoutBaconWellFormed(ts: seq<BaconTask>, bid: string)
    requires WellFormed(ts)
    ensures WellFormed(WithoutBacon(ts, bid))
  {
    FilterPairwise(ts, NotOfBacon(bid), (a: BaconTask, b: BaconTask) => a.id != b.id);
    FilterPairwise(ts, NotOfBacon(bid), (a: BaconTask, b: BaconTask) => a.createdAt <= b.createdAt);
  }

  /** db.BaconTaskByID: the row with task id `id`. */
  function FindById(ts: seq<BaconTask>, id: string): (r: Option<nat>)
    ensures r.Some? ==> r.value < |ts| && ts[r.value].id == id
    ensures r.None? ==> forall k :: 0 <= k < |ts| ==> ts[k].id != id
  {
    FirstWhere(ts, (t: BaconTask) => t.id == id)
  }

  /** The table after the operator cancels row `k`. */
  function CancelAt(ts: seq<BaconTask>, k: nat): seq<BaconTask>
    requires k < |ts|
  {
    ts[k := ts[k].(state := Canceled)]
  }

  /**
   * A canceled task leaves the pending query, and so is never delivered,
   * while every other pending task stays pending.
   */
  lemma CancelRemovesFromPending(ts: seq<BaconTask>, k: nat, bid: string)
    requires UniqueIds(ts) && k < |ts|
    ensures forall t :: t in PendingFor(CancelAt(ts, k), bid) <==> t in PendingFor(ts, bid) && t.id != ts[k].id
  {
    var c := CancelAt(ts, k);
    forall t ensures t in c && IsPendingFor(bid, t) <==> t in ts && IsPendingFor(bid, t) && t.id != ts[k].id {
      if t in c && IsPendingFor(bid, t) {
        var j :| 0 <= j < |c| && c[j] == t;
        assert j != k;
      }
      if t in ts && IsPendingFor(bid, t) && t.id != ts[k].id {
        var j :| 0 <= j < |ts| && ts[j] == t;
        assert c[j] == t;
      }
    }
  }

  /** Cancelling keeps the table well formed and is a legal transition from PENDING. */
  lemma CancelLegal(ts: seq<BaconTask>, k: nat)
    requires WellFormed(ts) && k < |ts| && ts[k].state == Pending
    ensures WellFormed(CancelAt(ts, k)) && SameRows(ts, CancelAt(ts, k))
    ensures LegalTransition(ts[k].state, CancelAt(ts, k)[k].state)
  {
    SameRowsWellFormed(ts, CancelAt(ts, k));
  }

  /** The rows of one bacon, in table order (db.BaconTasksByBaconID). */
  function TasksOf(ts: seq<BaconTask>, bid: string): seq<BaconTask> {
    Filter(ts, OfBacon(bid))
  }
}
