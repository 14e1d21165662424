/**
 * `getprivs` (client/command/privilege/getprivs.go): the Windows-only
 * privilege listing of the active target, printed at once or from a
 * callback when the target is a bacon, and the table it prints.
 */
module Privileges {
  import opened Common
  import opened Records
  import opened Strings
  import opened ClientState

  /** sliverpb.WindowsPrivilegeEntry. */
  datatype PrivEntry = PrivEntry(
    name: string, description: string,
    enabled: bool, enabledByDefault: bool, removed: bool, usedForAccess: bool)

  /**
   * sliverpb.GetPrivs. A decoded reply has no PrivInfo exactly when it
   * lists no privilege, so the empty sequence stands for Go's nil.
   */
  datatype PrivsReply = PrivsReply(
    privInfo: seq<PrivEntry>, processIntegrity: string, processName: string, response: Option<Response>)

  /** getOS: the session's OS when a session is given, else the bacon's (Go panics with neither). */
  function TargetOS(s: Option<Session>, b: Option<Bacon>): string
    requires s.Some? || b.Some?
  {
    if s.Some? then s.value.os else b.value.os
  }

  /** getPID: the session's PID when a session is given, else the bacon's (Go panics with neither). */
  function TargetPID(s: Option<Session>, b: Option<Bacon>): int
    requires s.Some? || b.Some?
  {
    if s.Some? then s.value.pid else b.value.pid
  }

  /** The flags after the enabled word, each that is set in a fixed order. */
  function FlagSuffix(byDefault: bool, removed: bool, used: bool): string {
    (if byDefault then ", Enabled by Default" else "") +
    (if removed then ", Removed" else "") +
    (if used then ", Used for Access" else "")
  }

  function EnabledWord(enabled: bool): string {
    if enabled then "Enabled" else "Disabled"
  }

  /** The Attributes cell: enabled or not, then each flag that is set. */
  function Attributes(e: PrivEntry): string {
    EnabledWord(e.enabled) + FlagSuffix(e.enabledByDefault, e.removed, e.usedForAccess)
  }

  /** The flag suffix names every flag unambiguously. */
  lemma FlagSuffixInjective(d1: bool, r1: bool, u1: bool, d2: bool, r2: bool, u2: bool)
    requires FlagSuffix(d1, r1, u1) == FlagSuffix(d2, r2, u2)
    ensures d1 == d2 && r1 == r2 && u1 == u2
  {
  }

  /** The Attributes cell determines every flag: equal cells mean equal flags. */
  lemma AttributesDetermineFlags(a: PrivEntry, b: PrivEntry)
    requires Attributes(a) == Attributes(b)
    ensures a.enabled == b.enabled && a.enabledByDefault == b.enabledByDefault
    ensures a.removed == b.removed && a.usedForAccess == b.usedForAccess
  {
    var ra, rb := Attributes(a), Attributes(b);
    var ha, hb := EnabledWord(a.enabled), EnabledWord(b.enabled);
    assert ra[0] == ha[0] && rb[0] == hb[0];
    assert a.enabled == b.enabled;
    assert ra[|ha|..] == FlagSuffix(a.enabledByDefault, a.removed, a.usedForAccess);
    assert rb[|hb|..] == FlagSuffix(b.enabledByDefault, b.removed, b.usedForAccess);
    FlagSuffixInjective(a.enabledByDefault, a.removed, a.usedForAccess, b.enabledByDefault, b.removed, b.usedForAccess);
  }

  /** The longest length among `xs`, 0 for none. */
  function Longest(xs: seq<string>): (r: nat)
    ensures forall i :: 0 <= i < |xs| ==> |xs[i]| <= r
    ensures xs == [] ==> r == 0
    ensures xs != [] ==> exists i :: 0 <= i < |xs| && |xs[i]| == r
    decreases |xs|
  {
    if xs == [] then 0
    else
      var n := |xs| - 1;
      var m := Longest(xs[..n]);
      assert forall i :: 0 <= i < n ==> xs[..n][i] == xs[i];
      if |xs[n]| > m then |xs[n]| else m
  }

  function Names(entries: seq<PrivEntry>): (r: seq<string>)
    ensures |r| == |entries| && forall i :: 0 <= i < |entries| ==> r[i] == entries[i].name
  {
    seq(|entries|, i requires 0 <= i < |entries| => entries[i].name)
  }

  function Descriptions(entries: seq<PrivEntry>): (r: seq<string>)
    ensures |r| == |entries| && forall i :: 0 <= i < |entries| ==> r[i] == entries[i].description
  {
    seq(|entries|, i requires 0 <= i < |entries| => entries[i].description)
  }

  /**
   * The width loop: the running maxima of the name and description
   * lengths, each given one more space.
   */
  method ColumnWidths(entries: seq<PrivEntry>) returns (nameWidth: int, descriptionWidth: int)
    ensures nameWidth == Longest(Names(entries)) + 1
    ensures descriptionWidth == Longest(Descriptions(entries)) + 1
  {
    nameWidth := 0;
    descriptionWidth := 0;
    ghost var names, descriptions := Names(entries), Descriptions(entries);
    for i := 0 to |entries|
      invariant nameWidth == Longest(names[..i])
      invariant descriptionWidth == Longest(descriptions[..i])
    {
      LongestStep(names, i);
      LongestStep(descriptions, i);
      if |entries[i].name| > nameWidth {
        nameWidth := |entries[i].name|;
      }
      if |entries[i].description| > descriptionWidth {
        descriptionWidth := |entries[i].description|;
      }
    }
    WholePrefix(names);
    WholePrefix(descriptions);
    nameWidth := nameWidth + 1;
    descriptionWidth := descriptionWidth + 1;
  }

  /** One row of the table: the padded name, then the padded description and the attributes after tabs. */
  function EntryLine(e: PrivEntry, nameWidth: int, descriptionWidth: int): string {
    PadRight(e.name, nameWidth) + RowTail(e, descriptionWidth)
  }

  function RowTail(e: PrivEntry, descriptionWidth: int): (r: string)
    ensures |r| > 0 && r[0] == '\t'
  {
    "\t" + (PadRight(e.description, descriptionWidth) + ("\t" + Attributes(e)))
  }

  /**
   * With the widths the loop computes, every name cell and every
   * description cell has exactly the column's width, so the tabs that
   * follow line up.
   */
  lemma CellsFillColumns(entries: seq<PrivEntry>, k: int)
    requires 0 <= k < |entries|
    ensures |PadRight(entries[k].name, Longest(Names(entries)) + 1)| == Longest(Names(entries)) + 1
    ensures |PadRight(entries[k].description, Longest(Descriptions(entries)) + 1)| == Longest(Descriptions(entries)) + 1
  {
    assert Names(entries)[k] == entries[k].name;
    assert Descriptions(entries)[k] == entries[k].description;
  }

  /** The process the listing is for: its name, or "Current Process" when the reply names none. */
  function ProcessName(p: PrivsReply): string {
    if p.processName != "" then p.processName else "Current Process"
  }

  function Title(processName: string, pid: int): string {
    "Privilege Information for " + processName + " (PID: " + Itoa(pid) + ")"
  }

  /** The rule under the title: 34 dashes plus the lengths of the name and the pid, exactly as long as the title. */
  function Rule(processName: string, pid: int): (r: string)
    ensures |r| == |Title(processName, pid)| && forall c :: c in r ==> c == '-'
  {
    Repeat('-', 34 + |processName| + |Itoa(pid)|)
  }

  /** The error note that opens the listing when the reply carries an error. */
  function Note(p: PrivsReply): (r: seq<string>)
    ensures p.response.Some? && p.response.value.err != "" ==> |r| == 3 && r[2] == p.response.value.err
    ensures !(p.response.Some? && p.response.value.err != "") ==> r == []
  {
    if p.response.Some? && p.response.value.err != "" then
      ["", "NOTE: Information may be incomplete due to an error:", p.response.value.err]
    else []
  }

  /** The title, its rule, the integrity level and the two header rows. */
  function TableHead(processName: string, pid: int, integrity: string, nameWidth: int, descriptionWidth: int): seq<string> {
    ["", Title(processName, pid), Rule(processName, pid), "", "Process Integrity Level: " + integrity, "",
     PadRight("Name", nameWidth) + "\t" + PadRight("Description", descriptionWidth) + "\tAttributes",
     PadRight("====", nameWidth) + "\t" + PadRight("===========", descriptionWidth) + "\t=========="]
  }

  function EntryLines(entries: seq<PrivEntry>, nameWidth: int, descriptionWidth: int): (r: seq<string>)
    ensures |r| == |entries| && forall i :: 0 <= i < |entries| ==> r[i] == EntryLine(entries[i], nameWidth, descriptionWidth)
  {
    seq(|entries|, i requires 0 <= i < |entries| => EntryLine(entries[i], nameWidth, descriptionWidth))
  }

  /** The table under the note: its head and one row per privilege, the columns as wide as ColumnWidths makes them. */
  function Table(p: PrivsReply, pid: int): (r: seq<string>)
    ensures |r| == 8 + |p.privInfo|
  {
    var nameWidth, descriptionWidth := Longest(Names(p.privInfo)) + 1, Longest(Descriptions(p.privInfo)) + 1;
    TableHead(ProcessName(p), pid, p.processIntegrity, nameWidth, descriptionWidth) +
    EntryLines(p.privInfo, nameWidth, descriptionWidth)
  }

  /** What PrintGetPrivs prints: the reply's error note, then the table when privileges are listed. */
  function PrivsLines(p: PrivsReply, pid: int): (lines: seq<string>)
    ensures |lines| == |Note(p)| + (if p.privInfo == [] then 0 else 8 + |p.privInfo|)
  {
    Note(p) + (if p.privInfo == [] then [] else Table(p, pid))
  }

  /** A row that starts with `name`, padded with spaces up to a tab at column `w`. */
  predicate CellAligned(row: string, name: string, w: int) {
    name <= row && 0 <= w < |row| && row[w] == '\t' && forall i :: |name| <= i < w ==> row[i] == ' '
  }

  /** A row whose name fits the column starts with the name and has its first tab just past the column. */
  lemma EntryLineCells(e: PrivEntry, nameWidth: int, descriptionWidth: int)
    requires |e.name| < nameWidth
    ensures CellAligned(EntryLine(e, nameWidth, descriptionWidth), e.name, nameWidth)
  {
    var cell, rest := PadRight(e.name, nameWidth), RowTail(e, descriptionWidth);
    PadRightPads(e.name, nameWidth);
    assert (cell + rest)[nameWidth] == rest[0];
    assert forall i :: 0 <= i < nameWidth ==> (cell + rest)[i] == cell[i];
  }

  /** A listing made of eight heading lines and the entry rows has row `k` aligned on the name column. */
  lemma RowCell(table: seq<string>, head: seq<string>, rows: seq<string>, e: PrivEntry, w: int, dw: int, k: int)
    requires table == head + rows && |head| == 8 && 0 <= k < |rows|
    requires rows[k] == EntryLine(e, w, dw) && |e.name| < w
    ensures CellAligned(table[8 + k], e.name, w)
  {
    assert table[8 + k] == rows[k];
    EntryLineCells(e, w, dw);
  }

  /** An aligned row stays aligned when lines are printed before it. */
  lemma ShiftCell(lines: seq<string>, before: seq<string>, rows: seq<string>, name: string, w: int, j: int)
    requires lines == before + rows && 0 <= j < |rows| && CellAligned(rows[j], name, w)
    ensures |lines| == |before| + |rows| && CellAligned(lines[|before| + j], name, w)
  {
    assert lines[|before| + j] == rows[j];
  }

  /** Row `k` of the table, under its eight heading lines, is aligned on the name column. */
  lemma TableRowAligned(p: PrivsReply, pid: int, k: int)
    requires 0 <= k < |p.privInfo|
    ensures CellAligned(Table(p, pid)[8 + k], p.privInfo[k].name, Longest(Names(p.privInfo)) + 1)
  {
    var e := p.privInfo[k];
    var w, dw := Longest(Names(p.privInfo)) + 1, Longest(Descriptions(p.privInfo)) + 1;
    var head, rows := TableHead(ProcessName(p), pid, p.processIntegrity, w, dw), EntryLines(p.privInfo, w, dw);
    assert Names(p.privInfo)[k] == e.name;
    RowCell(Table(p, pid), head, rows, e, w, dw, k);
  }

  /**
   * The listing has the note, eight heading lines and one row per
   * privilege, and every row starts with its privilege's name, padded
   * with spaces up to a tab at the same column, one past the longest name.
   */
  lemma RowsAligned(p: PrivsReply, pid: int, k: int)
    requires 0 <= k < |p.privInfo|
    ensures |PrivsLines(p, pid)| == |Note(p)| + 8 + |p.privInfo|
    ensures CellAligned(PrivsLines(p, pid)[|Note(p)| + 8 + k], p.privInfo[k].name, Longest(Names(p.privInfo)) + 1)
  {
    TableRowAligned(p, pid, k);
    ShiftCell(PrivsLines(p, pid), Note(p), Table(p, pid), p.privInfo[k].name, Longest(Names(p.privInfo)) + 1, 8 + k);
  }

  /** PrintGetPrivs: the note, the headers and a row per privilege, printed in turn. */
  method PrintGetPrivs(con: Console, p: PrivsReply, pid: int)
    modifies con
    ensures con.OnlyLogged() && con.rpcs == old(con.rpcs)
    ensures con.output == old(con.output) + PrivsLines(p, pid)
  {
    if p.response.Some? && p.response.value.err != "" {
      con.PrintLines(Note(p));
    } else {
      AppendEmpty(old(con.output));
    }
    assert con.output == old(con.output) + Note(p);
    if p.privInfo == [] {
      AppendEmpty(Note(p));
      return;
    }
    PrintTable(con, p, pid);
    AppendAssociates(old(con.output), Note(p), Table(p, pid));
  }

  /** The table is its head followed by its rows, for the name and widths the printer computes. */
  lemma TableSplit(p: PrivsReply, pid: int, processName: string, nameWidth: int, descriptionWidth: int)
    requires processName == ProcessName(p)
    requires nameWidth == Longest(Names(p.privInfo)) + 1 && descriptionWidth == Longest(Descriptions(p.privInfo)) + 1
    ensures Table(p, pid) == TableHead(processName, pid, p.processIntegrity, nameWidth, descriptionWidth) +
                             EntryLines(p.privInfo, nameWidth, descriptionWidth)
  {
  }

  /** Each entry moves the running maximum up to its length when longer. */
  lemma LongestStep(xs: seq<string>, i: nat)
    requires i < |xs|
    ensures Longest(xs[..i + 1]) == if |xs[i]| > Longest(xs[..i]) then |xs[i]| else Longest(xs[..i])
  {
    assert xs[..i + 1][..i] == xs[..i];
  }

  /** The listing proper, once there are privileges to list. */
  method PrintTable(con: Console, p: PrivsReply, pid: int)
    modifies con
    ensures con.OnlyLogged() && con.rpcs == old(con.rpcs)
    ensures con.output == old(con.output) + Table(p, pid)
  {
    var processName := "Current Process";
    if p.processName != "" {
      processName := p.processName;
    }
    var nameWidth, descriptionWidth := ColumnWidths(p.privInfo);
    ghost var head := TableHead(processName, pid, p.processIntegrity, nameWidth, descriptionWidth);
    ghost var rows := EntryLines(p.privInfo, nameWidth, descriptionWidth);
    TableSplit(p, pid, processName, nameWidth, descriptionWidth);
    con.PrintLines(TableHead(processName, pid, p.processIntegrity, nameWidth, descriptionWidth));
    PrintEntries(con, p.privInfo, nameWidth, descriptionWidth);
    AppendAssociates(old(con.output), head, rows);
  }

  /** The row loop of PrintGetPrivs: the cells of each privilege, then its attributes. */
  method PrintEntries(con: Console, entries: seq<PrivEntry>, nameWidth: int, descriptionWidth: int)
    modifies con
    ensures con.OnlyLogged() && con.rpcs == old(con.rpcs)
    ensures con.output == old(con.output) + EntryLines(entries, nameWidth, descriptionWidth)
  {
    ghost var lines := EntryLines(entries, nameWidth, descriptionWidth);
    for i := 0 to |entries|
      invariant con.OnlyLogged() && con.rpcs == old(con.rpcs)
      invariant con.output == old(con.output) + lines[..i]
    {
      var line := EntryLine(entries[i], nameWidth, descriptionWidth);
      con.Print(line);
      PrintedStep(old(con.output), lines, i, line);
    }
    WholePrefix(lines);
  }

  const WindowsOnly := "Command only supported on Windows."

  /**
   * GetPrivsCmd: nothing without a target; a target that does not run
   * Windows gets an error and no RPC; otherwise the privileges are asked
   * for, and an asynchronous reply leaves a callback under its task id
   * and prints `asyncNote`, the lines PrintAsyncResponse writes for it,
   * while a synchronous one is printed at once.
   */
  method GetPrivsCmd(con: Console, timeout: int, reply: Outcome<PrivsReply>, asyncNote: seq<string>)
    modifies con
    ensures con.activeSession == old(con.activeSession) && con.activeBacon == old(con.activeBacon)
    ensures con.socks == old(con.socks) && con.runs == old(con.runs)
    ensures old(con.activeSession).None? && old(con.activeBacon).None? ==>
      con.output == old(con.output) && con.rpcs == old(con.rpcs) && con.callbacks == old(con.callbacks)
    ensures old(con.activeSession).Some? || old(con.activeBacon).Some? ==>
      var s, b := old(con.activeSession), old(con.activeBacon);
      if TargetOS(s, b) != "windows" then
        con.output == old(con.output) + [WindowsOnly] && con.rpcs == old(con.rpcs) && con.callbacks == old(con.callbacks)
      else
        con.rpcs == old(con.rpcs) + [GetPrivsCall(TargetRequest(s, b, timeout))] &&
        match reply
        case Fail(e) => con.output == old(con.output) + [ErrorText(e)] && con.callbacks == old(con.callbacks)
        case Ok(p) =>
          if p.response.Some? && p.response.value.async then
            con.output == old(con.output) + asyncNote &&
            con.callbacks == old(con.callbacks)[p.response.value.taskId :=
              PrintPrivsCallback(TargetPID(s, b), if b.Some? then Some(b.value.id) else None)]
          else
            con.output == old(con.output) + PrivsLines(p, TargetPID(s, b)) && con.callbacks == old(con.callbacks)
  {
    var session, bacon := con.activeSession, con.activeBacon;
    if session.None? && bacon.None? {
      return;
    }
    var targetOS := TargetOS(session, bacon);
    if targetOS != "windows" {
      con.Print(WindowsOnly);
      return;
    }
    con.Call(GetPrivsCall(TargetRequest(session, bacon, timeout)));
    if reply.Fail? {
      con.Print(ErrorText(reply.error));
      return;
    }
    var privs := reply.value;
    var pid := TargetPID(session, bacon);
    if privs.response.Some? && privs.response.value.async {
      con.AddCallback(privs.response.value.taskId, PrintPrivsCallback(pid, if bacon.Some? then Some(bacon.value.id) else None));
      con.PrintLines(asyncNote);
    } else {
      PrintGetPrivs(con, privs, pid);
    }
  }

  /**
   * The getprivs callback, run when the task's result arrives: an
   * undecodable result is reported; otherwise the privileges are printed
   * and the bacon's integrity level is saved, a failure to save being
   * reported. The callback dereferences the captured bacon, so Go panics
   * when there is none.
   */
  method PrivsCallback(con: Console, pid: int, baconId: Option<string>, decoded: Outcome<PrivsReply>,
                       updateError: Option<ClientError>)
    requires decoded.Ok? ==> baconId.Some?
    modifies con
    ensures con.OnlyLogged()
    ensures decoded.Fail? ==>
      con.output == old(con.output) + ["Failed to decode response " + ErrorText(decoded.error)] &&
      con.rpcs == old(con.rpcs)
    ensures decoded.Ok? ==>
      con.rpcs == old(con.rpcs) + [UpdateIntegrityCall(baconId.value, decoded.value.processIntegrity)] &&
      con.output == old(con.output) + PrivsLines(decoded.value, pid) + SaveLines(updateError)
  {
    if decoded.Fail? {
      con.Print("Failed to decode response " + ErrorText(decoded.error));
      return;
    }
    PrintGetPrivs(con, decoded.value, pid);
    con.Call(UpdateIntegrityCall(baconId.value, decoded.value.processIntegrity));
    con.PrintLines(SaveLines(updateError));
  }

  /** The warning printed when the integrity level could not be saved, if any. */
  function SaveLines(updateError: Option<ClientError>): seq<string> {
    if updateError.Some? then ["Could not save integrity information for the bacon: " + ErrorText(updateError.value)] else []
  }
}
