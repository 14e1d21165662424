/**
 * `bacons prune` (client/command/beacons/prune.go): remove every bacon
 * that missed its next check-in by at least a given duration, after
 * listing them and asking for confirmation.
 *
 * Times are Go Durations (nanoseconds); a bacon's next check-in is in Unix
 * seconds. The clock reading is the parameter `now`.
 */
module Prune {
  import opened Common
  import opened Records
  import opened Strings
  import opened ClientState

  /** The bacon's next check-in has passed, by `d` or more. */
  function StaleAt(now: int, d: int): Bacon -> bool {
    (b: Bacon) => !(now < b.nextCheckin * Second) && d <= now - b.nextCheckin * Second
  }

  /** The bacons selected for pruning, in listing order. */
  function PruneSelection(bs: seq<Bacon>, now: int, d: int): (r: seq<Bacon>)
    ensures forall b :: b in r <==> b in bs && b.nextCheckin * Second <= now && b.nextCheckin * Second + d <= now
  {
    Filter(bs, StaleAt(now, d))
  }

  /** Filtering with a weaker test keeps at least what a stronger one keeps, in order. */
  lemma {:induction false} FilterWeaker(bs: seq<Bacon>, p: Bacon -> bool, q: Bacon -> bool)
    requires forall b :: p(b) ==> q(b)
    ensures multiset(Filter(bs, p)) <= multiset(Filter(bs, q))
    decreases |bs|
  {
    if bs != [] {
      FilterWeaker(bs[..|bs| - 1], p, q);
    }
  }

  /** A longer prune duration selects no bacon a shorter one leaves out. */
  lemma PruneMonotone(bs: seq<Bacon>, now: int, d1: int, d2: int)
    requires d1 <= d2
    ensures multiset(PruneSelection(bs, now, d2)) <= multiset(PruneSelection(bs, now, d1))
  {
    FilterWeaker(bs, StaleAt(now, d2), StaleAt(now, d1));
  }

  /** A bacon stale now stays stale later. */
  lemma PruneLater(bs: seq<Bacon>, now1: int, now2: int, d: int)
    requires now1 <= now2
    ensures multiset(PruneSelection(bs, now1, d)) <= multiset(PruneSelection(bs, now2, d))
  {
    FilterWeaker(bs, StaleAt(now1, d), StaleAt(now2, d));
  }

  function PruneIntro(duration: string): string {
    "Pruning bacons that missed their last checking by " + duration + " or more..."
  }

  const PruneWarning := "The following bacons and their tasks will be removed:"

  /** The lookup issued for each selected bacon before the prompt. */
  function GetBaconCalls(sel: seq<Bacon>): seq<RpcCall> {
    seq(|sel|, i requires 0 <= i < |sel| => GetBaconCall(sel[i].id))
  }

  /** The removal issued for each selected bacon once confirmed. */
  function RmBaconCalls(sel: seq<Bacon>): seq<RpcCall> {
    seq(|sel|, i requires 0 <= i < |sel| => RmBaconCall(sel[i].id))
  }

  /** The numbered list shown before the prompt (1-based), or the lookup's error. */
  function ConfirmLines(sel: seq<Bacon>, fetched: string -> Outcome<Bacon>): seq<string> {
    seq(|sel|, i requires 0 <= i < |sel| =>
      match fetched(sel[i].id)
      case Fail(e) => ErrorText(e)
      case Ok(b) => "\t" + Itoa(i + 1) + ". " + b.name + " (" + b.id + ")")
  }

  function RemovalFailed(rmError: string -> Option<ClientError>): Bacon -> bool {
    (b: Bacon) => rmError(b.id).Some?
  }

  function RemovalSucceeded(rmError: string -> Option<ClientError>): Bacon -> bool {
    (b: Bacon) => rmError(b.id).None?
  }

  /** The error printed for each failed removal, in order. */
  function RmErrors(sel: seq<Bacon>, rmError: string -> Option<ClientError>): seq<string>
    decreases |sel|
  {
    if sel == [] then []
    else
      var n := |sel| - 1;
      RmErrors(sel[..n], rmError) + (if rmError(sel[n].id).Some? then [ErrorText(rmError(sel[n].id).value)] else [])
  }

  /** The number printed as pruned is exactly the number of bacons whose removal succeeded. */
  lemma {:induction false} PrunedCount(sel: seq<Bacon>, rmError: string -> Option<ClientError>)
    ensures |sel| - |RmErrors(sel, rmError)| == |Filter(sel, RemovalSucceeded(rmError))|
    decreases |sel|
  {
    if sel != [] {
      PrunedCount(sel[..|sel| - 1], rmError);
    }
  }

  /**
   * BaconsPruneCmd. A duration that does not parse, or a failed listing,
   * prints the error and issues nothing. Otherwise the stale bacons are
   * selected; with none, only a message. With some, each is looked up and
   * listed, and only on confirmation each is removed, the failures are
   * printed, and the count of the others is reported.
   */
  method PruneCmd(con: Console, duration: Outcome<int>, durationText: int -> string, listing: Outcome<seq<Bacon>>,
                  now: int, fetched: string -> Outcome<Bacon>, confirm: bool, rmError: string -> Option<ClientError>)
    modifies con
    ensures con.OnlyLogged()
    ensures duration.Fail? ==> con.output == old(con.output) + [ErrorText(duration.error)] && con.rpcs == old(con.rpcs)
    ensures duration.Ok? && listing.Fail? ==>
      con.output == old(con.output) + [PruneIntro(durationText(duration.value)), "", ErrorText(listing.error)] &&
      con.rpcs == old(con.rpcs)
    ensures duration.Ok? && listing.Ok? && PruneSelection(listing.value, now, duration.value) == [] ==>
      con.output == old(con.output) + [PruneIntro(durationText(duration.value)), "", "No bacons to prune."] &&
      con.rpcs == old(con.rpcs)
    ensures duration.Ok? && listing.Ok? && PruneSelection(listing.value, now, duration.value) != [] ==>
      var sel := PruneSelection(listing.value, now, duration.value);
      con.rpcs == old(con.rpcs) + GetBaconCalls(sel) + (if confirm then RmBaconCalls(sel) else []) &&
      con.output == old(con.output) + [PruneIntro(durationText(duration.value)), ""] + PruneTail(sel, fetched, confirm, rmError)
  {
    if duration.Fail? {
      con.Print(ErrorText(duration.error));
      return;
    }
    var pruneDuration := duration.value;
    var intro := PruneIntro(durationText(pruneDuration));
    con.Print(intro);
    con.Print("");
    assert con.output == old(con.output) + [intro, ""];
    if listing.Fail? {
      con.Print(ErrorText(listing.error));
      return;
    }
    var pruneBacons := SelectStale(listing.value, now, pruneDuration);
    if |pruneBacons| == 0 {
      con.Print("No bacons to prune.");
      return;
    }
    ConfirmAndRemove(con, pruneBacons, fetched, confirm, rmError);
    AppendAssociates(old(con.output), [intro, ""], PruneTail(pruneBacons, fetched, confirm, rmError));
  }

  /** What PruneCmd prints once some bacon is selected. */
  function PruneTail(sel: seq<Bacon>, fetched: string -> Outcome<Bacon>, confirm: bool,
                     rmError: string -> Option<ClientError>): seq<string> {
    [PruneWarning] + ConfirmLines(sel, fetched) + [""] +
    (if confirm then RemovedLines(sel, rmError) else [])
  }

  /** What the removal prints: one line per failed removal, then how many were removed. */
  function RemovedLines(sel: seq<Bacon>, rmError: string -> Option<ClientError>): seq<string> {
    RmErrors(sel, rmError) + [PrunedLine(|sel| - |RmErrors(sel, rmError)|)]
  }

  function PrunedLine(removed: int): string {
    "Pruned " + Itoa(removed) + " bacon(s)"
  }

  /** The warning, the selected bacons, and on confirmation their removal and the count removed. */
  method ConfirmAndRemove(con: Console, pruneBacons: seq<Bacon>, fetched: string -> Outcome<Bacon>, confirm: bool,
                          rmError: string -> Option<ClientError>)
    modifies con
    ensures con.OnlyLogged()
    ensures con.rpcs == old(con.rpcs) + GetBaconCalls(pruneBacons) + (if confirm then RmBaconCalls(pruneBacons) else [])
    ensures con.output == old(con.output) + PruneTail(pruneBacons, fetched, confirm, rmError)
  {
    ghost var o, w, c, e := con.output, [PruneWarning], ConfirmLines(pruneBacons, fetched), [""];
    con.Print(PruneWarning);
    ListForConfirm(con, pruneBacons, fetched);
    con.Print("");
    assert con.output == o + w + c + e;
    if !confirm {
      AppendEmpty(con.rpcs);
      AppendEmpty(con.output);
      AppendFour(o, w, c, e, []);
      return;
    }
    RemoveAndCount(con, pruneBacons, rmError);
    AppendFour(o, w, c, e, RemovedLines(pruneBacons, rmError));
  }

  /** The removal loop, then the count of bacons removed. */
  method RemoveAndCount(con: Console, pruneBacons: seq<Bacon>, rmError: string -> Option<ClientError>)
    modifies con
    ensures con.OnlyLogged()
    ensures con.rpcs == old(con.rpcs) + RmBaconCalls(pruneBacons)
    ensures con.output == old(con.output) + RemovedLines(pruneBacons, rmError)
  {
    var errCount := RemoveAll(con, pruneBacons, rmError);
    ghost var r := RmErrors(pruneBacons, rmError);
    var done := PrunedLine(|pruneBacons| - errCount);
    con.Print(done);
    AppendAssociates(old(con.output), r, [done]);
  }

  /** The selection loop: a bacon whose next check-in is still ahead is skipped, otherwise kept when overdue by `d` or more. */
  method SelectStale(bacons: seq<Bacon>, now: int, pruneDuration: int) returns (pruneBacons: seq<Bacon>)
    ensures pruneBacons == PruneSelection(bacons, now, pruneDuration)
  {
    pruneBacons := [];
    for i := 0 to |bacons|
      invariant pruneBacons == Filter(bacons[..i], StaleAt(now, pruneDuration))
    {
      assert bacons[..i + 1][..i] == bacons[..i];
      var nextCheckin := bacons[i].nextCheckin * Second;
      if now < nextCheckin {
        continue;
      }
      var delta := now - nextCheckin;
      if pruneDuration <= delta {
        pruneBacons := pruneBacons + [bacons[i]];
      }
    }
    assert bacons[..|bacons|] == bacons;
  }

  /** The listing loop: each selected bacon is looked up again and listed, or its lookup error printed. */
  method ListForConfirm(con: Console, pruneBacons: seq<Bacon>, fetched: string -> Outcome<Bacon>)
    modifies con
    ensures con.OnlyLogged()
    ensures con.rpcs == old(con.rpcs) + GetBaconCalls(pruneBacons)
    ensures con.output == old(con.output) + ConfirmLines(pruneBacons, fetched)
  {
    ghost var calls := GetBaconCalls(pruneBacons);
    ghost var lines := ConfirmLines(pruneBacons, fetched);
    for index := 0 to |pruneBacons|
      invariant con.OnlyLogged()
      invariant con.rpcs == old(con.rpcs) + calls[..index]
      invariant con.output == old(con.output) + lines[..index]
    {
      var bacon := pruneBacons[index];
      ghost var before := con.output;
      con.Call(GetBaconCall(bacon.id));
      assert calls[..index + 1] == calls[..index] + [GetBaconCall(bacon.id)];
      var reply := fetched(bacon.id);
      if reply.Fail? {
        con.Print(ErrorText(reply.error));
      } else {
        con.Print("\t" + Itoa(index + 1) + ". " + reply.value.name + " (" + reply.value.id + ")");
      }
      assert con.output == before + [lines[index]];
      assert lines[..index + 1] == lines[..index] + [lines[index]];
    }
    assert calls[..|pruneBacons|] == calls;
    assert lines[..|pruneBacons|] == lines;
  }

  /** The removal loop: every selected bacon is removed in turn; a failure is printed and counted. */
  method RemoveAll(con: Console, pruneBacons: seq<Bacon>, rmError: string -> Option<ClientError>) returns (errCount: int)
    modifies con
    ensures con.OnlyLogged()
    ensures con.rpcs == old(con.rpcs) + RmBaconCalls(pruneBacons)
    ensures con.output == old(con.output) + RmErrors(pruneBacons, rmError)
    ensures errCount == |RmErrors(pruneBacons, rmError)|
  {
    errCount := 0;
    for i := 0 to |pruneBacons|
      invariant con.OnlyLogged()
      invariant con.rpcs == old(con.rpcs) + RmBaconCalls(pruneBacons)[..i]
      invariant con.output == old(con.output) + RmErrors(pruneBacons[..i], rmError)
      invariant errCount == |RmErrors(pruneBacons[..i], rmError)|
    {
      assert pruneBacons[..i + 1][..i] == pruneBacons[..i];
      assert RmBaconCalls(pruneBacons)[..i + 1] == RmBaconCalls(pruneBacons)[..i] + [RmBaconCall(pruneBacons[i].id)];
      con.Call(RmBaconCall(pruneBacons[i].id));
      var err := rmError(pruneBacons[i].id);
      if err.Some? {
        con.Print(ErrorText(err.value));
        errCount := errCount + 1;
      }
    }
    assert pruneBacons[..|pruneBacons|] == pruneBacons;
    assert RmBaconCalls(pruneBacons)[..|pruneBacons|] == RmBaconCalls(pruneBacons);
  }
}
