/**
 * `taskmany` (client/command/taskmany/taskmany.go): pick several sessions
 * and bacons at once and run a command against each live one, then put
 * the previously active target back.
 *
 * Each picked line is turned back into a target through a map keyed by
 * the option text with its separators removed. The option text is
 * displayed through a tab-aligned table, which replaces every tab by
 * space padding, so the picked line is looked up with its spaces and tabs
 * stripped. The keys of the map are built with the tabs stripped only;
 * `AsWrittenKey` models that and `AsWrittenNeverSelects` shows the target
 * it loses; `CorrectedKey` is the key that maps every displayed line back
 * to its target (`CorrectedSelects`). The picker and the command take the
 * key function as an argument, so they state both behaviours.
 */
module TaskMany {
  import opened Common
  import opened Records
  import opened Strings
  import opened Sorting
  import opened Picking
  import opened ClientState

  /** The cells of a session's option line. */
  function SessionCells(s: Session): seq<string> {
    ["SESSION", FirstSegment(s.id, '-'), s.name, s.remoteAddress, s.hostname, s.username, s.os + "/" + s.arch]
  }

  /** The cells of a bacon's option line. */
  function BaconCells(b: Bacon): seq<string> {
    ["BEACON", FirstSegment(b.id, '-'), b.name, b.remoteAddress, b.hostname, b.username, b.os + "/" + b.arch]
  }

  /** The option text written to the table: the cells separated by tabs. */
  function OptionText(cells: seq<string>): string {
    Join(cells, "\t")
  }

  /** The line the table displays: each cell but the last padded with spaces to its column. */
  function Render(cells: seq<string>, pads: seq<nat>): string
    requires |cells| >= 1 && |pads| == |cells| - 1
  {
    if |cells| == 1 then cells[0]
    else cells[0] + Spaces(pads[0]) + Render(cells[1..], pads[1..])
  }

  /** The map key as the source builds it: the option text with its tabs removed. */
  function AsWrittenKey(option: string): string {
    RemoveChars(option, {'\t'})
  }

  /** The map key that matches a stripped picked line: spaces and tabs removed. */
  function CorrectedKey(option: string): string {
    RemoveChars(option, Separators)
  }

  /** A picked line with every space, then every tab, removed. */
  function StripLine(line: string): string {
    RemoveChars(RemoveChars(line, {' '}), {'\t'})
  }

  function SessionKeyBy(keyOf: string -> string): Session -> string {
    (s: Session) => keyOf(OptionText(SessionCells(s)))
  }

  function BaconKeyBy(keyOf: string -> string): Bacon -> string {
    (b: Bacon) => keyOf(OptionText(BaconCells(b)))
  }

  /** The separators a picked line is stripped of. */
  const Separators: set<char> := {' ', '\t'}

  lemma StripIsRemove(line: string)
    ensures StripLine(line) == RemoveChars(line, Separators)
  {
    RemoveCharsTwice(line, {' '}, {'\t'});
    assert {' '} + {'\t'} == Separators;
  }

  /** Removing separators from `a`, a separator run, then `b`. */
  lemma RemoveAroundSeparator(a: string, gap: string, b: string, cs: set<char>)
    requires RemoveChars(gap, cs) == []
    ensures RemoveChars(a + gap + b, cs) == RemoveChars(a, cs) + RemoveChars(b, cs)
  {
    RemoveCharsConcat(a, gap, cs);
    assert RemoveChars(a + gap, cs) == RemoveChars(a, cs) + [];
    RemoveCharsConcat(a + gap, b, cs);
  }

  /** Padding a row instead of separating it by tabs makes no difference once separators are removed. */
  lemma {:induction false} RenderedLikeOption(cells: seq<string>, pads: seq<nat>)
    requires |cells| >= 1 && |pads| == |cells| - 1
    ensures RemoveChars(Render(cells, pads), Separators) == RemoveChars(OptionText(cells), Separators)
    decreases |cells|
  {
    if |cells| > 1 {
      RenderedLikeOption(cells[1..], pads[1..]);
      RemoveCharsAll(Spaces(pads[0]), Separators);
      RemoveAroundSeparator(cells[0], Spaces(pads[0]), Render(cells[1..], pads[1..]), Separators);
      RemoveCharsAll("\t", Separators);
      RemoveAroundSeparator(cells[0], "\t", Join(cells[1..], "\t"), Separators);
    }
  }

  /** Stripping a displayed line leaves the option text without spaces and tabs, whatever the padding. */
  lemma StripRendered(cells: seq<string>, pads: seq<nat>)
    requires |cells| >= 1 && |pads| == |cells| - 1
    ensures StripLine(Render(cells, pads)) == CorrectedKey(OptionText(cells))
  {
    StripIsRemove(Render(cells, pads));
    RenderedLikeOption(cells, pads);
  }

  /** What the picker returns: the picked sessions and bacons, in the order of the picked lines. */
  datatype Picked<S, B> = Picked(sessions: seq<S>, bacons: seq<B>)

  /** The loop over the picked lines: each is stripped and looked up in both maps. */
  function PickLines<S, B>(sm: map<string, S>, bm: map<string, B>, lines: seq<string>): Picked<S, B>
    decreases |lines|
  {
    if lines == [] then Picked([], [])
    else
      var n := |lines| - 1;
      var p := PickLines(sm, bm, lines[..n]);
      var k := StripLine(lines[n]);
      Picked(p.sessions + (if k in sm then [sm[k]] else []), p.bacons + (if k in bm then [bm[k]] else []))
  }

  /** One more line picks from both maps on top of the earlier lines. */
  lemma PickLinesStep<S, B>(sm: map<string, S>, bm: map<string, B>, lines: seq<string>, i: nat)
    requires i < |lines|
    ensures var p, k := PickLines(sm, bm, lines[..i]), StripLine(lines[i]);
      PickLines(sm, bm, lines[..i + 1]) ==
        Picked(p.sessions + (if k in sm then [sm[k]] else []), p.bacons + (if k in bm then [bm[k]] else []))
  {
    assert lines[..i + 1][..i] == lines[..i];
  }

  /** Everything picked is the map's entry for some picked line. */
  lemma {:induction false} PickLinesSound<S, B>(sm: map<string, S>, bm: map<string, B>, lines: seq<string>)
    ensures forall s :: s in PickLines(sm, bm, lines).sessions ==>
      exists l :: l in lines && StripLine(l) in sm && sm[StripLine(l)] == s
    ensures forall b :: b in PickLines(sm, bm, lines).bacons ==>
      exists l :: l in lines && StripLine(l) in bm && bm[StripLine(l)] == b
    decreases |lines|
  {
    if lines != [] {
      var n := |lines| - 1;
      PickLinesSound(sm, bm, lines[..n]);
      assert forall l :: l in lines[..n] ==> l in lines;
      assert lines[n] in lines;
    }
  }

  /** A picked line whose stripped text is a key picks that key's entry. */
  lemma {:induction false} PickLinesComplete<S, B>(sm: map<string, S>, bm: map<string, B>, lines: seq<string>, l: string)
    requires l in lines
    ensures StripLine(l) in sm ==> sm[StripLine(l)] in PickLines(sm, bm, lines).sessions
    ensures StripLine(l) in bm ==> bm[StripLine(l)] in PickLines(sm, bm, lines).bacons
    decreases |lines|
  {
    var n := |lines| - 1;
    if lines[n] != l {
      assert l in lines[..n];
      PickLinesComplete(sm, bm, lines[..n], l);
    }
  }

  /**
   * SelectMultipleBaconsAndSessions with the map keys given by `keyOf`:
   * failed listings are passed on; the listings are sorted by id; both
   * empty, or no line picked, is an error; otherwise the picked lines are
   * looked up.
   */
  function MultiSelection(sessions: Outcome<seq<Session>>, bacons: Outcome<seq<Bacon>>,
                          keyOf: string -> string, lines: seq<string>): Outcome<Picked<Session, Bacon>>
  {
    if sessions.Fail? then Fail(sessions.error)
    else if bacons.Fail? then Fail(bacons.error)
    else
      var ss := SortBy(sessions.value, SessionId);
      var bs := SortBy(bacons.value, BaconId);
      if |bs| == 0 && |ss| == 0 then Fail(NoSessionsOrBacons)
      else if |lines| == 0 then Fail(NoSessionsOrBaconsSelected)
      else Ok(PickLines(ById(ss, SessionKeyBy(keyOf)), ById(bs, BaconKeyBy(keyOf)), lines))
  }

  /** Everything picked was listed, and was picked through one of the picked lines. */
  lemma PickedAreListed(ss: seq<Session>, bs: seq<Bacon>, keyOf: string -> string, lines: seq<string>)
    ensures var r := MultiSelection(Ok(ss), Ok(bs), keyOf, lines);
      r.Ok? ==>
        (forall s :: s in r.value.sessions ==> s in ss && exists l :: l in lines && StripLine(l) == SessionKeyBy(keyOf)(s)) &&
        (forall b :: b in r.value.bacons ==> b in bs && exists l :: l in lines && StripLine(l) == BaconKeyBy(keyOf)(b))
  {
    var sorted, sortedB := SortBy(ss, SessionId), SortBy(bs, BaconId);
    SortBySorted(ss, SessionId);
    SortBySorted(bs, BaconId);
    var sm, bm := ById(sorted, SessionKeyBy(keyOf)), ById(sortedB, BaconKeyBy(keyOf));
    PickLinesSound(sm, bm, lines);
    forall s | s in PickLines(sm, bm, lines).sessions ensures s in ss {
      assert s in multiset(sorted);
    }
    forall b | b in PickLines(sm, bm, lines).bacons ensures b in bs {
      assert b in multiset(sortedB);
    }
  }

  /**
   * As written: a session whose option text holds a space (a user name
   * such as "NT AUTHORITY\SYSTEM", say) is never picked, whatever lines
   * are picked, because its key keeps the space and a stripped line
   * cannot.
   */
  lemma AsWrittenNeverSelects(ss: seq<Session>, bs: seq<Bacon>, lines: seq<string>, s: Session)
    requires ' ' in OptionText(SessionCells(s))
    ensures var r := MultiSelection(Ok(ss), Ok(bs), AsWrittenKey, lines);
      r.Ok? ==> s !in r.value.sessions
  {
    var r := MultiSelection(Ok(ss), Ok(bs), AsWrittenKey, lines);
    if r.Ok? {
      PickedAreListed(ss, bs, AsWrittenKey, lines);
      assert SessionKeyBy(AsWrittenKey)(s) == AsWrittenKey(OptionText(SessionCells(s)));
      RemoveCharsKeeps(OptionText(SessionCells(s)), {'\t'}, ' ');
      assert ' ' in SessionKeyBy(AsWrittenKey)(s);
      forall l | l in lines ensures ' ' !in StripLine(l) {
      }
    }
  }

  /** The same for bacons. */
  lemma AsWrittenNeverSelectsBacon(ss: seq<Session>, bs: seq<Bacon>, lines: seq<string>, b: Bacon)
    requires ' ' in OptionText(BaconCells(b))
    ensures var r := MultiSelection(Ok(ss), Ok(bs), AsWrittenKey, lines);
      r.Ok? ==> b !in r.value.bacons
  {
    var r := MultiSelection(Ok(ss), Ok(bs), AsWrittenKey, lines);
    if r.Ok? {
      PickedAreListed(ss, bs, AsWrittenKey, lines);
      assert BaconKeyBy(AsWrittenKey)(b) == AsWrittenKey(OptionText(BaconCells(b)));
      RemoveCharsKeeps(OptionText(BaconCells(b)), {'\t'}, ' ');
      assert ' ' in BaconKeyBy(AsWrittenKey)(b);
      forall l | l in lines ensures ' ' !in StripLine(l) {
      }
    }
  }

  /**
   * Corrected: picking the displayed line of a listed session picks that
   * session, whatever its fields hold and however the table padded them,
   * provided no other listed session has the same option text. The row
   * is offered whole only when its text holds no newline: the rendered
   * table is split at newlines, as `Picking.SplitOptions` models.
   */
  lemma CorrectedSelects(ss: seq<Session>, bs: seq<Bacon>, lines: seq<string>, s: Session, pads: seq<nat>)
    requires s in ss && |pads| == 6
    requires forall x :: x in ss && SessionKeyBy(CorrectedKey)(x) == SessionKeyBy(CorrectedKey)(s) ==> x == s
    requires Render(SessionCells(s), pads) in lines
    ensures var r := MultiSelection(Ok(ss), Ok(bs), CorrectedKey, lines);
      r.Ok? && s in r.value.sessions
  {
    var sorted := SortBy(ss, SessionId);
    SortBySorted(ss, SessionId);
    assert s in multiset(sorted);
    assert forall y :: y in sorted ==> y in ss by {
      forall y | y in sorted ensures y in ss { assert y in multiset(sorted); }
    }
    var key := SessionKeyBy(CorrectedKey);
    KeyedEntry(sorted, key, s);
    var line := Render(SessionCells(s), pads);
    StripRendered(SessionCells(s), pads);
    assert key(s) == StripLine(line);
    PickLinesComplete(ById(sorted, key), ById(SortBy(bs, BaconId), BaconKeyBy(CorrectedKey)), lines, line);
  }

  /** The same for bacons. */
  lemma CorrectedSelectsBacon(ss: seq<Session>, bs: seq<Bacon>, lines: seq<string>, b: Bacon, pads: seq<nat>)
    requires b in bs && |pads| == 6
    requires forall x :: x in bs && BaconKeyBy(CorrectedKey)(x) == BaconKeyBy(CorrectedKey)(b) ==> x == b
    requires Render(BaconCells(b), pads) in lines
    ensures var r := MultiSelection(Ok(ss), Ok(bs), CorrectedKey, lines);
      r.Ok? && b in r.value.bacons
  {
    var sorted := SortBy(bs, BaconId);
    SortBySorted(bs, BaconId);
    assert b in multiset(sorted);
    assert forall y :: y in sorted ==> y in bs by {
      forall y | y in sorted ensures y in bs { assert y in multiset(sorted); }
    }
    var key := BaconKeyBy(CorrectedKey);
    KeyedEntry(sorted, key, b);
    var line := Render(BaconCells(b), pads);
    StripRendered(BaconCells(b), pads);
    assert key(b) == StripLine(line);
    PickLinesComplete(ById(SortBy(ss, SessionId), SessionKeyBy(CorrectedKey)), ById(sorted, key), lines, line);
  }

  /**
   * SelectMultipleBaconsAndSessions, with the map keys built by `keyOf`:
   * `AsWrittenKey` as the source builds them, `CorrectedKey` as intended.
   */
  method SelectMultipleBaconsAndSessions(sessionsReply: Outcome<seq<Session>>, baconsReply: Outcome<seq<Bacon>>,
                                         keyOf: string -> string, selected: seq<string>)
    returns (r: Outcome<Picked<Session, Bacon>>)
    ensures r == MultiSelection(sessionsReply, baconsReply, keyOf, selected)
  {
    if sessionsReply.Fail? {
      return Fail(sessionsReply.error);
    }
    var sessions := SortBy(sessionsReply.value, SessionId);
    if baconsReply.Fail? {
      return Fail(baconsReply.error);
    }
    var bacons := SortBy(baconsReply.value, BaconId);
    if |bacons| == 0 && |sessions| == 0 {
      return Fail(NoSessionsOrBacons);
    }
    var sessionOptionMap := MapByKey(sessions, SessionKeyBy(keyOf));
    var baconOptionMap := MapByKey(bacons, BaconKeyBy(keyOf));
    if |selected| == 0 {
      return Fail(NoSessionsOrBaconsSelected);
    }
    var picked := PickAll(sessionOptionMap, baconOptionMap, selected);
    return Ok(picked);
  }

  /** The loop over the picked lines. */
  method PickAll<S, B>(sessionOptionMap: map<string, S>, baconOptionMap: map<string, B>, selected: seq<string>)
    returns (picked: Picked<S, B>)
    ensures picked == PickLines(sessionOptionMap, baconOptionMap, selected)
  {
    var selectedSessions: seq<S> := [];
    var selectedBacons: seq<B> := [];
    for i := 0 to |selected|
      invariant selectedSessions == PickLines(sessionOptionMap, baconOptionMap, selected[..i]).sessions
      invariant selectedBacons == PickLines(sessionOptionMap, baconOptionMap, selected[..i]).bacons
    {
      PickLinesStep(sessionOptionMap, baconOptionMap, selected, i);
      var s := StripLine(selected[i]);
      if s in sessionOptionMap {
        selectedSessions := selectedSessions + [sessionOptionMap[s]];
      }
      if s in baconOptionMap {
        selectedBacons := selectedBacons + [baconOptionMap[s]];
      }
    }
    WholePrefix(selected);
    return Picked(selectedSessions, selectedBacons);
  }

  function SessionAlive(s: Session): bool { !s.isDead }

  function BaconAlive(b: Bacon): bool { !b.isDead }

  function AsSessionTarget(s: Session): Target { SessionTarget(s) }

  function AsBaconTarget(b: Bacon): Target { BaconTarget(b) }

  /** The summary printed after the runs: how many of each were tasked, and how many dead ones were skipped. */
  function TaskedLines(p: Picked<Session, Bacon>): seq<string> {
    SummaryLines(CountsOf(p))
  }

  /** How many picked sessions and bacons were tasked, and how many dead ones were skipped. */
  datatype Counts = Counts(sessions: int, bacons: int, skippedSessions: int, skippedBacons: int)

  function CountsOf(p: Picked<Session, Bacon>): Counts {
    var nS, nB := |Filter(p.sessions, SessionAlive)|, |Filter(p.bacons, BaconAlive)|;
    Counts(nS, nB, |p.sessions| - nS, |p.bacons| - nB)
  }

  /** The summary lines for given counts. */
  function SummaryLines(c: Counts): seq<string> {
    ["Tasked " + Itoa(c.sessions) + " sessions and " + Itoa(c.bacons) + " bacons >:D"] +
    (if c.skippedBacons > 0 || c.skippedSessions > 0
     then ["Skipped " + Itoa(c.skippedSessions) + " dead sessions and " + Itoa(c.skippedBacons) + " dead bacons"]
     else [])
  }

  /** `ActiveTarget.Set` to one target, then the wrapped command. */
  method RunAs(con: Console, t: Target)
    modifies con
    ensures con.runs == old(con.runs) + [t]
    ensures con.output == old(con.output) && con.rpcs == old(con.rpcs)
    ensures con.socks == old(con.socks) && con.callbacks == old(con.callbacks)
  {
    match t {
      case SessionTarget(s) => con.SetActive(Some(s), None);
      case BaconTarget(b) => con.SetActive(None, Some(b));
    }
    con.Run();
  }

  /**
   * The bacon loop and the session loop: each live one becomes the active
   * target and the command runs against it; dead ones are counted as
   * skipped.
   */
  method RunEach<T(!new)>(con: Console, xs: seq<T>, alive: T -> bool, target: T -> Target) returns (n: int, skipped: int)
    modifies con
    ensures con.runs == old(con.runs) + MapSeq(Filter(xs, alive), target)
    ensures n == |Filter(xs, alive)| && skipped == |xs| - n
    ensures con.output == old(con.output) && con.rpcs == old(con.rpcs)
    ensures con.socks == old(con.socks) && con.callbacks == old(con.callbacks)
  {
    n, skipped := 0, 0;
    for i := 0 to |xs|
      invariant con.runs == old(con.runs) + MapSeq(Filter(xs[..i], alive), target)
      invariant n == |Filter(xs[..i], alive)| && skipped == i - n
      invariant con.output == old(con.output) && con.rpcs == old(con.rpcs)
      invariant con.socks == old(con.socks) && con.callbacks == old(con.callbacks)
    {
      ghost var before := Filter(xs[..i], alive);
      FilterLoopStep(xs, i, alive, xs[i], alive(xs[i]), before);
      if alive(xs[i]) {
        RunAs(con, target(xs[i]));
        n := n + 1;
        assert MapSeq(before + [xs[i]], target) == MapSeq(before, target) + [target(xs[i])];
      } else {
        skipped := skipped + 1;
      }
    }
    WholePrefix(xs);
  }

  /** After a successful pick: run on the live bacons, then the live sessions, restore the target, print the counts. */
  method RunPicked(con: Console, p: Picked<Session, Bacon>)
    requires con.Valid()
    modifies con
    ensures con.activeSession == old(con.activeSession) && con.activeBacon == old(con.activeBacon)
    ensures con.socks == old(con.socks) && con.callbacks == old(con.callbacks) && con.rpcs == old(con.rpcs)
    ensures con.runs == old(con.runs) + MapSeq(Filter(p.bacons, BaconAlive), AsBaconTarget) +
                        MapSeq(Filter(p.sessions, SessionAlive), AsSessionTarget)
    ensures con.output == old(con.output) + TaskedLines(p)
  {
    var origSession, origBacon := con.activeSession, con.activeBacon;
    var nB, nBSkipped := RunEach(con, p.bacons, BaconAlive, AsBaconTarget);
    var nS, nSSkipped := RunEach(con, p.sessions, SessionAlive, AsSessionTarget);
    con.SetActive(origSession, origBacon);
    var counts := Counts(nS, nB, nSSkipped, nBSkipped);
    assert counts == CountsOf(p);
    con.PrintLines(SummaryLines(counts));
  }

  /**
   * The command wrapped by taskmany. A failed pick is printed and nothing
   * runs. Otherwise the command runs against every live picked bacon, then
   * every live picked session, each made the active target in turn; the
   * previous active target is restored and the counts are printed. A
   * blank line is printed first and, deferred, last. The map keys are
   * built by `keyOf`, as in SelectMultipleBaconsAndSessions.
   */
  method TaskManyCmd(con: Console, sessions: Outcome<seq<Session>>, bacons: Outcome<seq<Bacon>>,
                     keyOf: string -> string, selected: seq<string>)
    requires con.Valid()
    modifies con
    ensures con.activeSession == old(con.activeSession) && con.activeBacon == old(con.activeBacon)
    ensures con.socks == old(con.socks) && con.callbacks == old(con.callbacks) && con.rpcs == old(con.rpcs)
    ensures var r := MultiSelection(sessions, bacons, keyOf, selected);
      match r
      case Fail(e) =>
        con.output == old(con.output) + ["", ErrorText(e), ""] && con.runs == old(con.runs)
      case Ok(p) =>
        con.runs == old(con.runs) + MapSeq(Filter(p.bacons, BaconAlive), AsBaconTarget) +
                    MapSeq(Filter(p.sessions, SessionAlive), AsSessionTarget) &&
        con.output == old(con.output) + [""] + TaskedLines(p) + [""]
  {
    var r := SelectMultipleBaconsAndSessions(sessions, bacons, keyOf, selected);
    if r.Fail? {
      con.Print("");
      con.Print(ErrorText(r.error));
      con.Print("");
      return;
    }
    con.Print("");
    RunPicked(con, r.value);
    con.Print("");
  }
}
