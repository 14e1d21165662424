/**
 * `bacons` (client/command/beacons/beacons.go): the bacon listing with its
 * kill and kill-all options, the choice of columns by terminal width and
 * operating system, and the substring or regular-expression row filter.
 */
module BaconsList {
  import opened Common
  import opened Records
  import opened Strings
  import opened ClientState
  import opened BaconHelpers
  import opened ClientKill

  /** The three column sets the listing can have. */
  datatype Layout = Narrow | Wide | WideWindows

  /** The terminal width, or 999 when the terminal size cannot be read. */
  function TermWidth(termSize: Option<int>): int {
    if termSize.Some? then termSize.value else 999
  }

  /** Whether some listed bacon runs Windows. */
  predicate AnyWindows(bacons: seq<Bacon>) {
    exists i :: 0 <= i < |bacons| && bacons[i].os == "windows"
  }

  /** The scan for a Windows bacon. */
  method FindWindows(bacons: seq<Bacon>) returns (found: bool)
    ensures found <==> AnyWindows(bacons)
  {
    found := false;
    for i := 0 to |bacons|
      invariant found <==> exists j :: 0 <= j < i && bacons[j].os == "windows"
    {
      if bacons[i].os == "windows" {
        found := true;
      }
    }
  }

  /**
   * The columns: wide when the configured small width is below the
   * terminal's, and then with an Integrity column exactly when some bacon
   * runs Windows.
   */
  function ChooseLayout(smallTermWidth: int, termSize: Option<int>, windows: bool): (l: Layout)
    ensures l != Narrow <==> smallTermWidth < TermWidth(termSize)
    ensures l == WideWindows <==> smallTermWidth < TermWidth(termSize) && windows
  {
    if smallTermWidth < TermWidth(termSize) then (if windows then WideWindows else Wide) else Narrow
  }

  function Header(layout: Layout): seq<string> {
    match layout
    case WideWindows =>
      ["ID", "Name", "Tasks", "Transport", "Remote Address", "Hostname", "Username", "Process (PID)",
       "Integrity", "Operating System", "Locale", "Last Check-in", "Next Check-in"]
    case Wide =>
      ["ID", "Name", "Tasks", "Transport", "Remote Address", "Hostname", "Username", "Process (PID)",
       "Operating System", "Locale", "Last Check-in", "Next Check-in"]
    case Narrow =>
      ["ID", "Name", "Transport", "Hostname", "Username", "Operating System", "Last Check-in", "Next Check-in"]
  }

  /** The integrity shown: "-" for none recorded. */
  function ShownIntegrity(b: Bacon): (r: string)
    ensures r != ""
    ensures b.integrity != "" ==> r == b.integrity
  {
    if b.integrity == "" then "-" else b.integrity
  }

  /** The username shown: without a leading `hostname\`. */
  function ShownUsername(b: Bacon): (r: string)
    ensures HasPrefix(b.username, b.hostname + "\\") ==> b.username == b.hostname + "\\" + r
    ensures !HasPrefix(b.username, b.hostname + "\\") ==> r == b.username
  {
    TrimPrefix(b.username, b.hostname + "\\")
  }

  /** The terminal escape sequences of console.Normal and console.Green (ANSI SGR 0 and 32). */
  const Normal: string := "\U{1B}[0m"
  const Green: string := "\U{1B}[32m"

  /** A cell written in `color`, the colour reset after it. */
  function Paint(color: string, text: string): string {
    color + text + Normal
  }

  /** The colour of a bacon's cells: green for the active bacon, else normal. */
  function RowColor(b: Bacon, active: Option<Bacon>): (c: string)
    ensures c == Green <==> active.Some? && active.value.id == b.id
  {
    if active.Some? && active.value.id == b.id then Green else Normal
  }

  /** The text of the cells of a bacon's row that are painted: all but the two check-in times. */
  function PlainCells(b: Bacon, layout: Layout): seq<string> {
    var id := FirstSegment(b.id, '-');
    var os := b.os + "/" + b.arch;
    if layout == Narrow then
      [id, b.name, b.transport, b.hostname, ShownUsername(b), os]
    else
      [id, b.name, Itoa(b.tasksCountCompleted) + "/" + Itoa(b.tasksCount), b.transport, b.remoteAddress,
       b.hostname, ShownUsername(b), b.filename + " (" + Itoa(b.pid) + ")"] +
      (if layout == WideWindows then [ShownIntegrity(b)] else []) +
      [os, b.locale]
  }

  /**
   * The cells of one bacon's row: the plain cells painted in `color`, then
   * the last and next check-in times formatted by
   * `dateDelta(time, wide, future)`.
   */
  function RowEntries(b: Bacon, layout: Layout, color: string, dateDelta: (int, bool, bool) -> string): seq<string> {
    MapSeq(PlainCells(b, layout), (t: string) => Paint(color, t)) +
    [dateDelta(b.lastCheckin, layout != Narrow, false), dateDelta(b.nextCheckin, layout != Narrow, true)]
  }

  /**
   * The filters see the colours: every cell but the check-in times starts
   * with the escape character of its row's colour code and ends with the
   * reset code, so a pattern anchored at the start of a cell never meets
   * the bacon's own text there.
   */
  lemma FilterSeesColour(b: Bacon, layout: Layout, active: Option<Bacon>, dateDelta: (int, bool, bool) -> string)
    ensures var row, color := RowEntries(b, layout, RowColor(b, active), dateDelta), RowColor(b, active);
      |row| == |PlainCells(b, layout)| + 2 &&
      forall k :: 0 <= k < |row| - 2 ==>
        row[k] == color + PlainCells(b, layout)[k] + Normal && |row[k]| > 0 && row[k][0] == '\U{1B}'
  {
    var row, color := RowEntries(b, layout, RowColor(b, active), dateDelta), RowColor(b, active);
    forall k | 0 <= k < |row| - 2
      ensures row[k] == color + PlainCells(b, layout)[k] + Normal && |row[k]| > 0 && row[k][0] == '\U{1B}'
    {
      assert row[k] == Paint(color, PlainCells(b, layout)[k]);
      assert color[0] == '\U{1B}';
    }
  }

  /**
   * Every row has as many cells as its header, and the cells that name
   * the bacon, its integrity and its next check-in sit under their
   * headers; only the Windows layout has an Integrity column.
   */
  lemma CellsUnderHeaders(b: Bacon, layout: Layout, color: string, dateDelta: (int, bool, bool) -> string)
    ensures var row, header := RowEntries(b, layout, color, dateDelta), Header(layout);
      |row| == |header| && |row| > 6 &&
      header[0] == "ID" && row[0] == Paint(color, FirstSegment(b.id, '-')) &&
      header[|header| - 1] == "Next Check-in" && row[|row| - 1] == dateDelta(b.nextCheckin, layout != Narrow, true) &&
      (layout == WideWindows ==> header[8] == "Integrity" && row[8] == Paint(color, ShownIntegrity(b))) &&
      (layout == Narrow ==> header[4] == "Username" && row[4] == Paint(color, ShownUsername(b))) &&
      (layout != Narrow ==> header[6] == "Username" && row[6] == Paint(color, ShownUsername(b)))
  {
    match layout
    case Narrow =>
    case Wide =>
    case WideWindows =>
  }

  /** Whether a cell passes the filter: it contains the substring, or the regular expression matches it. */
  predicate CellMatches(cell: string, filter: string, regex: Option<string -> bool>) {
    (filter != "" && Contains(cell, filter)) || (regex.Some? && regex.value(cell))
  }

  /** Whether a row is listed: always without a filter, else when some cell passes it. */
  predicate RowShown(entries: seq<string>, filter: string, regex: Option<string -> bool>) {
    (filter == "" && regex.None?) || exists i :: 0 <= i < |entries| && CellMatches(entries[i], filter, regex)
  }

  function Shown(filter: string, regex: Option<string -> bool>): seq<string> -> bool {
    (entries: seq<string>) => RowShown(entries, filter, regex)
  }

  /** The filter loop: the cells tried in turn, stopping at the first that passes. */
  method ShowRow(entries: seq<string>, filter: string, regex: Option<string -> bool>) returns (shown: bool)
    ensures shown <==> RowShown(entries, filter, regex)
  {
    if filter == "" && regex.None? {
      return true;
    }
    shown := false;
    var i := 0;
    while i < |entries|
      invariant 0 <= i <= |entries|
      invariant forall j :: 0 <= j < i ==> !CellMatches(entries[j], filter, regex)
    {
      if filter != "" {
        if Contains(entries[i], filter) {
          return true;
        }
      }
      if regex.Some? {
        if regex.value(entries[i]) {
          return true;
        }
      }
      i := i + 1;
    }
  }

  /** The row of every bacon, in listing order, the active bacon's in green. */
  function AllRows(bacons: seq<Bacon>, layout: Layout, active: Option<Bacon>, dateDelta: (int, bool, bool) -> string)
    : (r: seq<seq<string>>)
    ensures |r| == |bacons|
    ensures forall i :: 0 <= i < |bacons| ==> r[i] == RowEntries(bacons[i], layout, RowColor(bacons[i], active), dateDelta)
  {
    seq(|bacons|, i requires 0 <= i < |bacons| => RowEntries(bacons[i], layout, RowColor(bacons[i], active), dateDelta))
  }

  /** The layout renderBacons picks for this listing. */
  function ListingLayout(bacons: seq<Bacon>, smallTermWidth: int, termSize: Option<int>): Layout {
    ChooseLayout(smallTermWidth, termSize, AnyWindows(bacons))
  }

  /** The rows the table gets: those of the bacons the filter lets through, in listing order. */
  function TableRows(bacons: seq<Bacon>, layout: Layout, active: Option<Bacon>, filter: string, regex: Option<string -> bool>,
                     dateDelta: (int, bool, bool) -> string): seq<seq<string>> {
    Filter(AllRows(bacons, layout, active, dateDelta), Shown(filter, regex))
  }

  /**
   * renderBacons: the layout is chosen, then each bacon's row is built
   * and appended when the filter lets it through.
   */
  method RenderBacons(bacons: seq<Bacon>, smallTermWidth: int, termSize: Option<int>, active: Option<Bacon>, filter: string,
                      regex: Option<string -> bool>, dateDelta: (int, bool, bool) -> string)
    returns (header: seq<string>, rows: seq<seq<string>>)
    ensures header == Header(ListingLayout(bacons, smallTermWidth, termSize))
    ensures rows == TableRows(bacons, ListingLayout(bacons, smallTermWidth, termSize), active, filter, regex, dateDelta)
  {
    var windows := FindWindows(bacons);
    var layout := ChooseLayout(smallTermWidth, termSize, windows);
    header := Header(layout);
    rows := FilterRows(bacons, layout, active, filter, regex, dateDelta);
  }

  /** The row loop of renderBacons: each bacon's cells, kept when the filter lets them through. */
  method FilterRows(bacons: seq<Bacon>, layout: Layout, active: Option<Bacon>, filter: string, regex: Option<string -> bool>,
                    dateDelta: (int, bool, bool) -> string)
    returns (rows: seq<seq<string>>)
    ensures rows == TableRows(bacons, layout, active, filter, regex, dateDelta)
  {
    ghost var all := AllRows(bacons, layout, active, dateDelta);
    rows := [];
    for i := 0 to |bacons|
      invariant rows == Filter(all[..i], Shown(filter, regex))
    {
      var color := RowColor(bacons[i], active);
      var entries := RowEntries(bacons[i], layout, color, dateDelta);
      var shown := ShowRow(entries, filter, regex);
      FilterLoopStep(all, i, Shown(filter, regex), entries, shown, rows);
      if shown {
        rows := rows + [entries];
      }
    }
    WholePrefix(all);
  }

  /** Without a filter every bacon gets a row, in listing order. */
  lemma NoFilterListsAll(bacons: seq<Bacon>, layout: Layout, active: Option<Bacon>, dateDelta: (int, bool, bool) -> string)
    ensures TableRows(bacons, layout, active, "", None, dateDelta) == AllRows(bacons, layout, active, dateDelta)
  {
    var all := AllRows(bacons, layout, active, dateDelta);
    FilterAll(all, Shown("", None));
  }

  /**
   * With a filter, a bacon's row is listed exactly when one of its cells
   * passes, and never twice: the table has at most one row per bacon,
   * each as wide as the header.
   */
  lemma FilteredRows(bacons: seq<Bacon>, layout: Layout, active: Option<Bacon>, filter: string, regex: Option<string -> bool>,
                     dateDelta: (int, bool, bool) -> string)
    ensures var rows := TableRows(bacons, layout, active, filter, regex, dateDelta);
      |rows| <= |bacons| &&
      (forall r :: r in rows ==> |r| == |Header(layout)|) &&
      forall b :: b in bacons ==>
        var row := RowEntries(b, layout, RowColor(b, active), dateDelta);
        (row in rows <==> RowShown(row, filter, regex))
  {
    var all := AllRows(bacons, layout, active, dateDelta);
    var rows := TableRows(bacons, layout, active, filter, regex, dateDelta);
    forall r | r in rows
      ensures |r| == |Header(layout)|
    {
      var i :| 0 <= i < |all| && all[i] == r;
      CellsUnderHeaders(bacons[i], layout, RowColor(bacons[i], active), dateDelta);
    }
    forall b | b in bacons
      ensures RowEntries(b, layout, RowColor(b, active), dateDelta) in all
    {
      var i :| 0 <= i < |bacons| && bacons[i] == b;
      assert all[i] == RowEntries(b, layout, RowColor(b, active), dateDelta);
    }
  }

  const NoBaconsLine := "No bacons \U{1F641}"

  /**
   * What PrintBacons prints: that there are none, or the table as
   * `render` lays out a header and rows.
   */
  function ListingLine(bacons: seq<Bacon>, smallTermWidth: int, termSize: Option<int>, active: Option<Bacon>, filter: string,
                       regex: Option<string -> bool>, dateDelta: (int, bool, bool) -> string,
                       render: (seq<string>, seq<seq<string>>) -> string): string {
    if |bacons| == 0 then NoBaconsLine
    else
      var layout := ListingLayout(bacons, smallTermWidth, termSize);
      render(Header(layout), TableRows(bacons, layout, active, filter, regex, dateDelta))
  }

  /** PrintBacons: the active bacon's row is painted green. */
  method PrintBacons(con: Console, bacons: seq<Bacon>, smallTermWidth: int, termSize: Option<int>, filter: string,
                     regex: Option<string -> bool>, dateDelta: (int, bool, bool) -> string,
                     render: (seq<string>, seq<seq<string>>) -> string)
    modifies con
    ensures con.OnlyLogged() && con.rpcs == old(con.rpcs)
    ensures con.output == old(con.output) +
      [ListingLine(bacons, smallTermWidth, termSize, old(con.activeBacon), filter, regex, dateDelta, render)]
  {
    if |bacons| == 0 {
      con.Print(NoBaconsLine);
      return;
    }
    var header, rows := RenderBacons(bacons, smallTermWidth, termSize, con.activeBacon, filter, regex, dateDelta);
    con.Print(render(header, rows));
  }

  /** The two lines a successful kill prints. */
  function KilledLines(b: Bacon): seq<string> {
    ["", "Killed " + b.name + " (" + b.id + ")"]
  }

  /** A blank line, then which bacon was killed. */
  method ReportKilled(con: Console, b: Bacon)
    modifies con
    ensures con.OnlyLogged() && con.rpcs == old(con.rpcs)
    ensures con.output == old(con.output) + KilledLines(b)
  {
    con.Print("");
    con.Print("Killed " + b.name + " (" + b.id + ")");
  }

  /** The index of the first bacon whose kill fails, or the length when none does. */
  function FirstFailure(bacons: seq<Bacon>, killReply: Bacon -> Option<ClientError>): (n: nat)
    ensures n <= |bacons|
    ensures forall j :: 0 <= j < n ==> killReply(bacons[j]).None?
    ensures n < |bacons| ==> killReply(bacons[n]).Some?
    decreases |bacons|
  {
    if bacons == [] then 0
    else if killReply(bacons[0]).Some? then 0
    else 1 + FirstFailure(bacons[1..], killReply)
  }

  /** The kill requests of a run of bacons, in order. */
  function KillCalls(bacons: seq<Bacon>, timeout: int, force: bool): (r: seq<RpcCall>)
    ensures |r| == |bacons| && forall i :: 0 <= i < |bacons| ==> r[i] == KillCall(BaconKillReq(bacons[i], timeout, force))
  {
    seq(|bacons|, i requires 0 <= i < |bacons| => KillCall(BaconKillReq(bacons[i], timeout, force)))
  }

  /** The lines of a run of successful kills. */
  function KilledRun(bacons: seq<Bacon>): (r: seq<string>)
    ensures |r| == 2 * |bacons|
    decreases |bacons|
  {
    if bacons == [] then [] else KilledRun(bacons[..|bacons| - 1]) + KilledLines(bacons[|bacons| - 1])
  }

  /**
   * The kill-all loop: each bacon in turn is killed, until the first kill
   * that fails, whose error is printed and ends the command. Returns
   * whether it stopped.
   */
  method KillEach(con: Console, bacons: seq<Bacon>, timeout: int, force: bool, killReply: Bacon -> Option<ClientError>)
    returns (stopped: bool)
    modifies con
    ensures var n := FirstFailure(bacons, killReply);
      stopped == (n < |bacons|) &&
      con.rpcs == old(con.rpcs) + KillCalls(bacons[..if stopped then n + 1 else n], timeout, force) &&
      con.output == old(con.output) + KilledRun(bacons[..n]) +
        (if stopped then [ErrorText(killReply(bacons[n]).value)] else [])
    ensures con.OnlyLogged()
  {
    ghost var n := FirstFailure(bacons, killReply);
    var i := 0;
    while i < |bacons|
      invariant 0 <= i <= n
      invariant con.OnlyLogged()
      invariant con.rpcs == old(con.rpcs) + KillCalls(bacons[..i], timeout, force)
      invariant con.output == old(con.output) + KilledRun(bacons[..i])
    {
      var b := bacons[i];
      var err := KillBacon(con, Some(b), timeout, force, killReply(b));
      KillCallsStep(bacons, i, timeout, force);
      AppendAssociates(old(con.rpcs), KillCalls(bacons[..i], timeout, force), [KillCall(BaconKillReq(b, timeout, force))]);
      if err.Some? {
        con.Print(ErrorText(err.value));
        FirstFailureAt(bacons, killReply, i);
        return true;
      }
      ReportKilled(con, b);
      KilledRunStep(bacons, i);
      AppendAssociates(old(con.output), KilledRun(bacons[..i]), KilledLines(b));
      i := i + 1;
    }
    return false;
  }

  lemma KillCallsStep(bacons: seq<Bacon>, i: int, timeout: int, force: bool)
    requires 0 <= i < |bacons|
    ensures KillCalls(bacons[..i + 1], timeout, force) ==
      KillCalls(bacons[..i], timeout, force) + [KillCall(BaconKillReq(bacons[i], timeout, force))]
  {
  }

  lemma KilledRunStep(bacons: seq<Bacon>, i: int)
    requires 0 <= i < |bacons|
    ensures KilledRun(bacons[..i + 1]) == KilledRun(bacons[..i]) + KilledLines(bacons[i])
  {
    assert bacons[..i + 1][..i] == bacons[..i];
  }

  /** A failing kill reached with every earlier kill succeeding is the first failure. */
  lemma FirstFailureAt(bacons: seq<Bacon>, killReply: Bacon -> Option<ClientError>, i: int)
    requires 0 <= i < |bacons| && i <= FirstFailure(bacons, killReply)
    requires killReply(bacons[i]).Some?
    ensures FirstFailure(bacons, killReply) == i
  {
  }

  /** What one stage of BaconsCmd prints and which acting RPCs it makes, and whether the command ends there. */
  datatype Effect = Effect(lines: seq<string>, calls: seq<RpcCall>, stopped: bool)

  /**
   * The `--kill` option: nothing without an id; otherwise the bacon is
   * looked up by id or prefix, a failed lookup is printed and ends the
   * command, and the bacon found is killed, a failure ending the command.
   */
  function KillFlagEffect(killFlag: string, listing: Outcome<seq<Bacon>>, timeout: int, force: bool,
                          killReply: Bacon -> Option<ClientError>): (e: Effect)
    ensures e.stopped ==> |e.lines| == 1
    ensures |e.calls| <= 1 && (e.calls != [] ==> killFlag != "" && GetBacon(listing, killFlag).Ok?)
  {
    if killFlag == "" then Effect([], [], false)
    else match GetBacon(listing, killFlag)
      case Fail(err) => Effect([ErrorText(err)], [], true)
      case Ok(b) =>
        var call := [KillCall(BaconKillReq(b, timeout, force))];
        if killReply(b).Some? then Effect([ErrorText(killReply(b).value)], call, true)
        else Effect(KilledLines(b), call, false)
  }

  /**
   * The `--kill-all` option: nothing unless set; otherwise an empty or
   * failed listing is printed and ends the command, and the bacons are
   * killed in listing order until the first kill that fails.
   */
  function KillAllEffect(killAll: bool, listing: Outcome<seq<Bacon>>, timeout: int, force: bool,
                         killReply: Bacon -> Option<ClientError>): Effect {
    if !killAll then Effect([], [], false)
    else match GetBacons(listing)
      case Fail(err) => Effect([ErrorText(err)], [], true)
      case Ok(bs) =>
        var n := FirstFailure(bs, killReply);
        if n < |bs| then
          Effect(KilledRun(bs[..n]) + [ErrorText(killReply(bs[n]).value)], KillCalls(bs[..n + 1], timeout, force), true)
        else Effect(KilledRun(bs), KillCalls(bs, timeout, force), false)
  }

  /**
   * Kill-all stops at the first failing kill: with a failure, the bacons
   * before it are killed and reported, then the failing one is asked and
   * its error printed; with none, every bacon gets one kill request, in
   * listing order.
   */
  lemma KillAllStopsAtFirstError(listing: Outcome<seq<Bacon>>, timeout: int, force: bool,
                                 killReply: Bacon -> Option<ClientError>)
    requires listing.Ok? && listing.value != []
    ensures var e, bs := KillAllEffect(true, listing, timeout, force, killReply), listing.value;
      (e.stopped <==> exists i :: 0 <= i < |bs| && killReply(bs[i]).Some?) &&
      (e.stopped ==>
        var n := |e.calls| - 1;
        0 <= n < |bs| && killReply(bs[n]).Some? && e.calls[n] == KillCall(BaconKillReq(bs[n], timeout, force)) &&
        (forall j :: 0 <= j < n ==> killReply(bs[j]).None?) &&
        |e.lines| == 2 * n + 1 && e.lines[2 * n] == ErrorText(killReply(bs[n]).value)) &&
      (!e.stopped ==> e.calls == KillCalls(bs, timeout, force) && |e.lines| == 2 * |bs|)
  {
    var bs := listing.value;
    var n := FirstFailure(bs, killReply);
    if n < |bs| {
      assert KillCalls(bs[..n + 1], timeout, force)[n] == KillCall(BaconKillReq(bs[..n + 1][n], timeout, force));
    } else {
      assert bs[..n] == bs;
    }
  }

  /**
   * The listing after the kill options: a malformed regular expression is
   * printed and ends the command; otherwise the bacons are listed, or the
   * listing's error printed.
   */
  function ListEffect(filter: string, filterRe: string, compileRe: string -> Outcome<string -> bool>,
                      listing: Outcome<seq<Bacon>>, smallTermWidth: int, termSize: Option<int>, active: Option<Bacon>,
                      dateDelta: (int, bool, bool) -> string, render: (seq<string>, seq<seq<string>>) -> string): seq<string> {
    if filterRe != "" && compileRe(filterRe).Fail? then [ErrorText(compileRe(filterRe).error)]
    else
      var regex := if filterRe != "" then Some(compileRe(filterRe).value) else None;
      match listing
      case Fail(err) => [ErrorText(err)]
      case Ok(bs) => [ListingLine(bs, smallTermWidth, termSize, active, filter, regex, dateDelta, render)]
  }

  method KillFlagStage(con: Console, killFlag: string, listing: Outcome<seq<Bacon>>, timeout: int, force: bool,
                       killReply: Bacon -> Option<ClientError>) returns (stopped: bool)
    modifies con
    ensures var e := KillFlagEffect(killFlag, listing, timeout, force, killReply);
      stopped == e.stopped && con.output == old(con.output) + e.lines && con.rpcs == old(con.rpcs) + e.calls
    ensures con.OnlyLogged()
  {
    if killFlag == "" {
      return false;
    }
    var found := GetBacon(listing, killFlag);
    if found.Fail? {
      con.Print(ErrorText(found.error));
      return true;
    }
    var b := found.value;
    var err := KillBacon(con, Some(b), timeout, force, killReply(b));
    if err.Some? {
      con.Print(ErrorText(err.value));
      return true;
    }
    ReportKilled(con, b);
    return false;
  }

  method KillAllStage(con: Console, killAll: bool, listing: Outcome<seq<Bacon>>, timeout: int, force: bool,
                      killReply: Bacon -> Option<ClientError>) returns (stopped: bool)
    modifies con
    ensures var e := KillAllEffect(killAll, listing, timeout, force, killReply);
      stopped == e.stopped && con.output == old(con.output) + e.lines && con.rpcs == old(con.rpcs) + e.calls
    ensures con.OnlyLogged()
  {
    if !killAll {
      AppendEmpty(con.output);
      AppendEmpty(con.rpcs);
      return false;
    }
    var bacons := GetBacons(listing);
    if bacons.Fail? {
      con.Print(ErrorText(bacons.error));
      AppendEmpty(con.rpcs);
      return true;
    }
    stopped := KillEach(con, bacons.value, timeout, force, killReply);
    if !stopped {
      assert bacons.value[..|bacons.value|] == bacons.value;
      AppendEmpty(old(con.output) + KilledRun(bacons.value));
    } else {
      AppendAssociates(old(con.output), KilledRun(bacons.value[..FirstFailure(bacons.value, killReply)]),
        [ErrorText(killReply(bacons.value[FirstFailure(bacons.value, killReply)]).value)]);
    }
  }

  method ListStage(con: Console, filter: string, filterRe: string, compileRe: string -> Outcome<string -> bool>,
                   listing: Outcome<seq<Bacon>>, smallTermWidth: int, termSize: Option<int>,
                   dateDelta: (int, bool, bool) -> string, render: (seq<string>, seq<seq<string>>) -> string)
    modifies con
    ensures con.OnlyLogged() && con.rpcs == old(con.rpcs)
    ensures con.output == old(con.output) +
      ListEffect(filter, filterRe, compileRe, listing, smallTermWidth, termSize, old(con.activeBacon), dateDelta, render)
  {
    var regex: Option<string -> bool> := None;
    if filterRe != "" {
      var compiled := compileRe(filterRe);
      if compiled.Fail? {
        con.Print(ErrorText(compiled.error));
        return;
      }
      regex := Some(compiled.value);
    }
    if listing.Fail? {
      con.Print(ErrorText(listing.error));
      return;
    }
    PrintBacons(con, listing.value, smallTermWidth, termSize, filter, regex, dateDelta, render);
  }

  /**
   * BaconsCmd: the `--kill` option, then `--kill-all`, then the listing;
   * a stage that fails ends the command. Nothing but the output and the
   * kill requests changes.
   */
  method BaconsCmd(con: Console, killFlag: string, killAll: bool, filter: string, filterRe: string,
                   timeout: int, force: bool, killListing: Outcome<seq<Bacon>>, killAllListing: Outcome<seq<Bacon>>,
                   killReply: Bacon -> Option<ClientError>, compileRe: string -> Outcome<string -> bool>,
                   listing: Outcome<seq<Bacon>>, smallTermWidth: int, termSize: Option<int>,
                   dateDelta: (int, bool, bool) -> string, render: (seq<string>, seq<seq<string>>) -> string)
    modifies con
    ensures con.OnlyLogged()
    ensures var e1 := KillFlagEffect(killFlag, killListing, timeout, force, killReply);
      var e2 := KillAllEffect(killAll, killAllListing, timeout, force, killReply);
      var listed := ListEffect(filter, filterRe, compileRe, listing, smallTermWidth, termSize, old(con.activeBacon), dateDelta, render);
      if e1.stopped then con.output == old(con.output) + e1.lines && con.rpcs == old(con.rpcs) + e1.calls
      else if e2.stopped then
        con.output == old(con.output) + e1.lines + e2.lines && con.rpcs == old(con.rpcs) + e1.calls + e2.calls
      else
        con.output == old(con.output) + e1.lines + e2.lines + listed && con.rpcs == old(con.rpcs) + e1.calls + e2.calls
  {
    var stopped := KillFlagStage(con, killFlag, killListing, timeout, force, killReply);
    if stopped {
      return;
    }
    stopped := KillAllStage(con, killAll, killAllListing, timeout, force, killReply);
    if stopped {
      return;
    }
    ListStage(con, filter, filterRe, compileRe, listing, smallTermWidth, termSize, dateDelta, render);
  }
}
