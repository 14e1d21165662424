/**
 * Choosing the active target (client/command/use): by id prefix, where
 * sessions are searched before bacons, or interactively from one list of
 * sessions followed by bacons, each group in ascending id order.
 */
module Use {
  import opened Common
  import opened Records
  import opened Strings
  import opened Sorting
  import opened Picking
  import opened ClientState
  import opened BaconHelpers

  function SessionHasPrefix(id: string): Session -> bool {
    (s: Session) => HasPrefix(s.id, id)
  }

  function BaconHasPrefix(id: string): Bacon -> bool {
    (b: Bacon) => HasPrefix(b.id, id)
  }

  /**
   * SessionOrBaconByID: the first session whose id starts with `id`; only
   * when there is none, the first such bacon; otherwise an error naming
   * the id. A failed listing is passed on, and the bacon listing is not
   * consulted once a session matched.
   */
  function SessionOrBaconByID(id: string, sessions: Outcome<seq<Session>>, bacons: Outcome<seq<Bacon>>): (r: Outcome<Target>)
    ensures sessions.Fail? ==> r == Fail(sessions.error)
    ensures sessions.Ok? && (exists s :: s in sessions.value && HasPrefix(s.id, id)) ==> r.Ok? && r.value.SessionTarget?
    ensures r.Ok? && r.value.SessionTarget? ==>
      sessions.Ok? && HasPrefix(r.value.session.id, id) &&
      exists i :: 0 <= i < |sessions.value| && sessions.value[i] == r.value.session &&
        forall j :: 0 <= j < i ==> !HasPrefix(sessions.value[j].id, id)
    ensures r.Ok? && r.value.BaconTarget? ==>
      sessions.Ok? && bacons.Ok? && (forall s :: s in sessions.value ==> !HasPrefix(s.id, id)) &&
      HasPrefix(r.value.bacon.id, id) &&
      exists i :: 0 <= i < |bacons.value| && bacons.value[i] == r.value.bacon &&
        forall j :: 0 <= j < i ==> !HasPrefix(bacons.value[j].id, id)
    ensures r.Fail? && sessions.Ok? && bacons.Ok? ==>
      r.error == NoSessionOrBaconWithId(id) &&
      (forall s :: s in sessions.value ==> !HasPrefix(s.id, id)) &&
      (forall b :: b in bacons.value ==> !HasPrefix(b.id, id))
    ensures r.Fail? && sessions.Ok? && bacons.Fail? ==> r == Fail(bacons.error)
  {
    if sessions.Fail? then Fail(sessions.error)
    else
      match FirstWhere(sessions.value, SessionHasPrefix(id))
      case Some(i) => Ok(SessionTarget(sessions.value[i]))
      case None =>
        if bacons.Fail? then Fail(bacons.error)
        else
          match FirstWhere(bacons.value, BaconHasPrefix(id))
          case Some(i) => Ok(BaconTarget(bacons.value[i]))
          case None => Fail(NoSessionOrBaconWithId(id))
  }

  /** The session ids of the listing, sorted (a repeated id is listed once per session). */
  function SessionKeys(ss: seq<Session>): (keys: seq<string>)
    ensures forall k :: k in keys <==> k in ById(ss, SessionId)
  {
    SessionKeysSorted(ss);
    SortStrings(MapSeq(ss, SessionId))
  }

  /** The session keys are ascending, one per listed session. */
  lemma SessionKeysSorted(ss: seq<Session>)
    ensures var keys := SortStrings(MapSeq(ss, SessionId));
      SortedBy(keys, Identity) &&
      multiset(keys) == multiset(MapSeq(ss, SessionId)) && |keys| == |ss| &&
      forall k :: k in keys <==> k in ById(ss, SessionId)
  {
    SortBySorted(MapSeq(ss, SessionId), Identity);
    var keys := SortStrings(MapSeq(ss, SessionId));
    assert forall k :: k in keys <==> k in multiset(MapSeq(ss, SessionId));
    assert |keys| == |multiset(keys)| == |multiset(MapSeq(ss, SessionId))|;
  }

  /** The options shown: a line per session key, then a line per bacon key. */
  function SelectionOptions(ss: seq<Session>, bs: seq<Bacon>, sessionLine: Session -> string, baconLine: Bacon -> string): seq<string> {
    OptionLines(SessionKeys(ss), ById(ss, SessionId), sessionLine) +
    OptionLines(BaconKeys(bs), ById(bs, BaconId), baconLine)
  }

  /**
   * The choice SelectSessionOrBacon makes, given both listings, how a
   * session's and a bacon's option lines are rendered, and the line the
   * user picked ("" when none). `Ok(None)` is the Go (nil, nil, nil):
   * the picked line matched no option.
   */
  function Selection(sessions: Outcome<seq<Session>>, bacons: Outcome<seq<Bacon>>,
                     sessionLine: Session -> string, baconLine: Bacon -> string, selected: string): Outcome<Option<Target>>
  {
    if sessions.Fail? then Fail(sessions.error)
    else if bacons.Fail? then Fail(bacons.error)
    else
      var ss, bs := sessions.value, bacons.value;
      var sessionKeys, baconKeys := SessionKeys(ss), BaconKeys(bs);
      if |baconKeys| == 0 && |sessionKeys| == 0 then Fail(NoSessionsOrBacons)
      else if selected == "" then Fail(NoSelection)
      else Ok(OptionTarget(ss, bs, sessionLine, baconLine, selected))
  }

  /** The target of the first option equal to the picked line, if any. */
  function OptionTarget(ss: seq<Session>, bs: seq<Bacon>,
                        sessionLine: Session -> string, baconLine: Bacon -> string, selected: string): Option<Target>
  {
    PickedTarget(SessionKeys(ss), ById(ss, SessionId), BaconKeys(bs), ById(bs, BaconId), sessionLine, baconLine, selected)
  }

  /** The target of the first option, among the session lines then the bacon lines, equal to the picked line. */
  function PickedTarget(sessionKeys: seq<string>, sessionsMap: map<string, Session>,
                        baconKeys: seq<string>, baconsMap: map<string, Bacon>,
                        sessionLine: Session -> string, baconLine: Bacon -> string, selected: string): Option<Target>
    requires forall k :: k in sessionKeys ==> k in sessionsMap
    requires forall k :: k in baconKeys ==> k in baconsMap
  {
    match IndexOf(OptionLines(sessionKeys, sessionsMap, sessionLine) + OptionLines(baconKeys, baconsMap, baconLine), selected)
    case None => None
    case Some(i) => Some(TargetAt(sessionKeys, sessionsMap, baconKeys, baconsMap, i))
  }

  /**
   * The target of option `i`: the session under `sessionKeys[i]`, or past
   * the session lines the bacon under `baconKeys[i - |sessionKeys|]`.
   */
  function TargetAt(sessionKeys: seq<string>, sessionsMap: map<string, Session>,
                    baconKeys: seq<string>, baconsMap: map<string, Bacon>, i: nat): Target
    requires forall k :: k in sessionKeys ==> k in sessionsMap
    requires forall k :: k in baconKeys ==> k in baconsMap
    requires i < |sessionKeys| + |baconKeys|
  {
    if i < |sessionKeys| then SessionTarget(sessionsMap[sessionKeys[i]])
    else BaconTarget(baconsMap[baconKeys[i - |sessionKeys|]])
  }

  /** A failed pick is a failed listing, an empty pair of listings, or no line picked. */
  lemma SelectionErrors(sessions: Outcome<seq<Session>>, bacons: Outcome<seq<Bacon>>,
                        sessionLine: Session -> string, baconLine: Bacon -> string, selected: string)
    ensures var r := Selection(sessions, bacons, sessionLine, baconLine, selected);
      r.Fail? <==> (sessions.Fail? && r.error == sessions.error) ||
                   (sessions.Ok? && bacons.Fail? && r.error == bacons.error) ||
                   (sessions == Ok([]) && bacons == Ok([]) && r.error == NoSessionsOrBacons) ||
                   (sessions.Ok? && bacons.Ok? && selected == "" && r.error == NoSelection)
  {
    if sessions.Ok? && bacons.Ok? && bacons.value != [] {
      assert bacons.value[0].id in BaconKeys(bacons.value);
    }
    if sessions.Ok? && bacons.Ok? && sessions.value != [] {
      assert sessions.value[0].id in SessionKeys(sessions.value);
    }
  }

  /** A picked target is listed, and the line the user picked is its line. */
  lemma SelectionSound(ss: seq<Session>, bs: seq<Bacon>,
                       sessionLine: Session -> string, baconLine: Bacon -> string, selected: string)
    ensures var r := Selection(Ok(ss), Ok(bs), sessionLine, baconLine, selected);
      (r.Ok? && r.value.Some? && r.value.value.SessionTarget? ==>
        r.value.value.session in ss && sessionLine(r.value.value.session) == selected) &&
      (r.Ok? && r.value.Some? && r.value.value.BaconTarget? ==>
        r.value.value.bacon in bs && baconLine(r.value.value.bacon) == selected)
  {
    PickedSound(ss, bs, sessionLine, baconLine, selected);
  }

  /** The target of the picked option is listed, and the option is its line. */
  lemma PickedSound(ss: seq<Session>, bs: seq<Bacon>,
                    sessionLine: Session -> string, baconLine: Bacon -> string, selected: string)
    ensures var t := OptionTarget(ss, bs, sessionLine, baconLine, selected);
      (t.Some? && t.value.SessionTarget? ==> t.value.session in ss && sessionLine(t.value.session) == selected) &&
      (t.Some? && t.value.BaconTarget? ==> t.value.bacon in bs && baconLine(t.value.bacon) == selected)
  {
    var idx := IndexOf(SelectionOptions(ss, bs, sessionLine, baconLine), selected);
    assert OptionTarget(ss, bs, sessionLine, baconLine, selected) ==
      if idx.None? then None else Some(TargetAt(SessionKeys(ss), ById(ss, SessionId), BaconKeys(bs), ById(bs, BaconId), idx.value));
    if idx.Some? {
      SessionKeysListed(ss);
      BaconKeysListed(bs);
      TargetAtSound(SessionKeys(ss), ById(ss, SessionId), BaconKeys(bs), ById(bs, BaconId), ss, bs,
                    sessionLine, baconLine, SelectionOptions(ss, bs, sessionLine, baconLine), idx.value, selected);
    }
  }

  /** Every sorted session key maps to a listed session. */
  lemma SessionKeysListed(ss: seq<Session>)
    ensures forall k :: k in SessionKeys(ss) ==> k in ById(ss, SessionId) && ById(ss, SessionId)[k] in ss
  {
  }

  /** Every sorted bacon key maps to a listed bacon. */
  lemma BaconKeysListed(bs: seq<Bacon>)
    ensures forall k :: k in BaconKeys(bs) ==> k in ById(bs, BaconId) && ById(bs, BaconId)[k] in bs
  {
  }

  /** The target of an option is listed, and the option is its line. */
  lemma TargetAtSound(sessionKeys: seq<string>, sessionsMap: map<string, Session>,
                      baconKeys: seq<string>, baconsMap: map<string, Bacon>, ss: seq<Session>, bs: seq<Bacon>,
                      sessionLine: Session -> string, baconLine: Bacon -> string, options: seq<string>, i: nat, selected: string)
    requires forall k :: k in sessionKeys ==> k in sessionsMap && sessionsMap[k] in ss
    requires forall k :: k in baconKeys ==> k in baconsMap && baconsMap[k] in bs
    requires options == OptionLines(sessionKeys, sessionsMap, sessionLine) + OptionLines(baconKeys, baconsMap, baconLine)
    requires i < |options| && options[i] == selected
    ensures var t := TargetAt(sessionKeys, sessionsMap, baconKeys, baconsMap, i);
      (t.SessionTarget? ==> t.session in ss && sessionLine(t.session) == selected) &&
      (t.BaconTarget? ==> t.bacon in bs && baconLine(t.bacon) == selected)
  {
    var n := |sessionKeys|;
    if i < n {
      assert options[i] == OptionLines(sessionKeys, sessionsMap, sessionLine)[i];
    } else {
      assert options[i] == OptionLines(baconKeys, baconsMap, baconLine)[i - n];
    }
  }

  /** The line of a listed session is first found among the session options. */
  lemma SessionLineFirst(ss: seq<Session>, bs: seq<Bacon>,
                         sessionLine: Session -> string, baconLine: Bacon -> string, s: Session)
    requires forall i, j :: 0 <= i < j < |ss| ==> ss[i].id != ss[j].id
    requires s in ss
    ensures var idx := IndexOf(SelectionOptions(ss, bs, sessionLine, baconLine), sessionLine(s));
      idx.Some? && idx.value < |SessionKeys(ss)|
  {
    var sk, sm := SessionKeys(ss), ById(ss, SessionId);
    var i :| 0 <= i < |ss| && ss[i] == s;
    ByIdLast(ss, SessionId, i);
    LineListed(sk, sm, sessionLine, s.id);
    var a := OptionLines(sk, sm, sessionLine);
    IndexOfPrefix(a, OptionLines(BaconKeys(bs), ById(bs, BaconId), baconLine), sessionLine(s));
  }

  /**
   * A session takes precedence over a bacon rendered with the same line:
   * with unique session ids, picking the line of a listed session selects
   * a session, never a bacon.
   */
  lemma SessionsTakePrecedence(ss: seq<Session>, bs: seq<Bacon>,
                               sessionLine: Session -> string, baconLine: Bacon -> string, s: Session)
    requires forall i, j :: 0 <= i < j < |ss| ==> ss[i].id != ss[j].id
    requires s in ss && sessionLine(s) != ""
    ensures var r := Selection(Ok(ss), Ok(bs), sessionLine, baconLine, sessionLine(s));
      r.Ok? && r.value.Some? && r.value.value.SessionTarget?
  {
    SessionLineFirst(ss, bs, sessionLine, baconLine, s);
    assert s.id in ById(ss, SessionId);
  }

  /**
   * The target SelectSessionOrBacon picks as the Go code is written: the
   * session and bacon lines are rendered into one text, split at newlines,
   * and the picked option's index is mapped to the keys. The outer `None`
   * is an index past both key lists, where the Go code panics.
   */
  function OptionTargetAsWritten(ss: seq<Session>, bs: seq<Bacon>,
                                 sessionLine: Session -> string, baconLine: Bacon -> string, selected: string): Option<Option<Target>>
  {
    var sessionKeys, baconKeys := SessionKeys(ss), BaconKeys(bs);
    var sessionsMap, baconsMap := ById(ss, SessionId), ById(bs, BaconId);
    match IndexOf(SplitOptions(SelectionOptions(ss, bs, sessionLine, baconLine)), selected)
    case None => Some(None)
    case Some(i) =>
      if i < |sessionKeys| + |baconKeys| then Some(Some(TargetAt(sessionKeys, sessionsMap, baconKeys, baconsMap, i)))
      else None
  }

  /** Selection with the as-written split options; `None` is the Go panic. */
  function SelectionAsWritten(sessions: Outcome<seq<Session>>, bacons: Outcome<seq<Bacon>>,
                              sessionLine: Session -> string, baconLine: Bacon -> string, selected: string): Option<Outcome<Option<Target>>>
  {
    if sessions.Fail? then Some(Fail(sessions.error))
    else if bacons.Fail? then Some(Fail(bacons.error))
    else
      var ss, bs := sessions.value, bacons.value;
      if |BaconKeys(bs)| == 0 && |SessionKeys(ss)| == 0 then Some(Fail(NoSessionsOrBacons))
      else if selected == "" then Some(Fail(NoSelection))
      else match OptionTargetAsWritten(ss, bs, sessionLine, baconLine, selected)
        case None => None
        case Some(t) => Some(Ok(t))
  }

  /** While no listed session's or bacon's line holds a newline, the split changes nothing: one option per target. */
  lemma SelectionAsWrittenAgrees(sessions: Outcome<seq<Session>>, bacons: Outcome<seq<Bacon>>,
                                 sessionLine: Session -> string, baconLine: Bacon -> string, selected: string)
    requires sessions.Ok? ==> forall s :: s in sessions.value ==> '\n' !in sessionLine(s)
    requires bacons.Ok? ==> forall b :: b in bacons.value ==> '\n' !in baconLine(b)
    ensures SelectionAsWritten(sessions, bacons, sessionLine, baconLine, selected) ==
            Some(Selection(sessions, bacons, sessionLine, baconLine, selected))
  {
    if sessions.Ok? && bacons.Ok? {
      OptionTargetAsWrittenAgrees(sessions.value, bacons.value, sessionLine, baconLine, selected);
    }
  }

  /** The picked target with and without the split, when no line holds a newline. */
  lemma OptionTargetAsWrittenAgrees(ss: seq<Session>, bs: seq<Bacon>,
                                    sessionLine: Session -> string, baconLine: Bacon -> string, selected: string)
    requires forall s :: s in ss ==> '\n' !in sessionLine(s)
    requires forall b :: b in bs ==> '\n' !in baconLine(b)
    ensures OptionTargetAsWritten(ss, bs, sessionLine, baconLine, selected) == Some(OptionTarget(ss, bs, sessionLine, baconLine, selected))
  {
    var options := SelectionOptions(ss, bs, sessionLine, baconLine);
    SelectionOptionsPlain(ss, bs, sessionLine, baconLine);
    SplitOptionsPlain(options);
  }

  /** No option holds a newline when no listed session's or bacon's line does. */
  lemma SelectionOptionsPlain(ss: seq<Session>, bs: seq<Bacon>, sessionLine: Session -> string, baconLine: Bacon -> string)
    requires forall s :: s in ss ==> '\n' !in sessionLine(s)
    requires forall b :: b in bs ==> '\n' !in baconLine(b)
    ensures var options := SelectionOptions(ss, bs, sessionLine, baconLine);
      forall i :: 0 <= i < |options| ==> '\n' !in options[i]
  {
    var a := OptionLines(SessionKeys(ss), ById(ss, SessionId), sessionLine);
    var b := OptionLines(BaconKeys(bs), ById(bs, BaconId), baconLine);
    SessionKeysListed(ss);
    BaconKeysListed(bs);
    assert forall i :: 0 <= i < |a| ==> '\n' !in a[i];
    assert forall i :: 0 <= i < |b| ==> '\n' !in b[i];
  }

  /** An option line made of the host name alone, enough to show the split. */
  function SessionHostname(s: Session): string { s.hostname }

  /**
   * As written, a session whose host name holds a newline is offered as two
   * options, which shifts every later option by one: picking the second
   * half of the session's row makes the bacon after it the active target,
   * while one option per row reports that nothing matched.
   */
  lemma SplitSessionRowPicksBacon(s: Session, b: Bacon)
    requires s.hostname == "a\nb" && b.hostname == "c"
    ensures SelectionAsWritten(Ok([s]), Ok([b]), SessionHostname, HostnameLine, "b") == Some(Ok(Some(BaconTarget(b))))
    ensures Selection(Ok([s]), Ok([b]), SessionHostname, HostnameLine, "b") == Ok(None)
  {
    SessionKeysSorted([s]);
    assert forall k :: k in ById([s], SessionId) <==> k == s.id;
    var sk := SessionKeys([s]);
    assert |sk| == 1 && sk[0] in sk;
    assert sk == [s.id];
    OneBaconKeys(b);
    KeyedEntry([s], SessionId, s);
    KeyedEntry([b], BaconId, b);
    assert s.hostname == "a" + "\n" + "b";
    assert SelectionOptions([s], [b], SessionHostname, HostnameLine) == ["a" + "\n" + "b"] + ["c"];
    SplitRowTwoOptions("a", "b", ["c"]);
    assert IndexOf(["a", "b", "c"], "b") == Some(1);
    assert IndexOf(["a" + "\n" + "b", "c"], "b") == None;
  }

  /** The session half of SelectSessionOrBacon: the map by id and the listed ids, sorted. */
  method SessionsByKey(ss: seq<Session>) returns (sessionsMap: map<string, Session>, sessionKeys: seq<string>)
    ensures sessionsMap == ById(ss, SessionId) && sessionKeys == SessionKeys(ss)
  {
    sessionsMap := MapByKey(ss, SessionId);
    sessionKeys := CollectKeys(ss, SessionId);
    sessionKeys := SortStrings(sessionKeys);
  }

  /** The bacon half of SelectSessionOrBacon: the map by id and its keys, sorted. */
  method BaconsByKey(bs: seq<Bacon>) returns (baconsMap: map<string, Bacon>, baconKeys: seq<string>)
    ensures baconsMap == ById(bs, BaconId) && baconKeys == BaconKeys(bs)
  {
    baconsMap := MapByKey(bs, BaconId);
    baconKeys := SortedMapKeys(baconsMap);
    StrictlySortedUnique(baconKeys, BaconKeys(bs));
  }

  /**
   * SelectSessionOrBacon: both listings into maps by id, the session keys
   * taken from the listing and sorted, the bacon keys taken from the map
   * and sorted, one option per key, and the picked option mapped back
   * through its index.
   */
  method SelectSessionOrBacon(sessions: Outcome<seq<Session>>, bacons: Outcome<seq<Bacon>>,
                              sessionLine: Session -> string, baconLine: Bacon -> string, selected: string)
    returns (r: Outcome<Option<Target>>)
    ensures r == Selection(sessions, bacons, sessionLine, baconLine, selected)
  {
    if sessions.Fail? {
      return Fail(sessions.error);
    }
    var sessionsMap, sessionKeys := SessionsByKey(sessions.value);
    if bacons.Fail? {
      return Fail(bacons.error);
    }
    var baconsMap, baconKeys := BaconsByKey(bacons.value);
    if |baconKeys| == 0 && |sessionKeys| == 0 {
      return Fail(NoSessionsOrBacons);
    }
    if selected == "" {
      return Fail(NoSelection);
    }
    var t := PickOption(sessionsMap, sessionKeys, baconsMap, baconKeys, sessionLine, baconLine, selected);
    return Ok(t);
  }

  /** The options rendered from the keys, and the picked option mapped back through its index. */
  method PickOption(sessionsMap: map<string, Session>, sessionKeys: seq<string>,
                    baconsMap: map<string, Bacon>, baconKeys: seq<string>,
                    sessionLine: Session -> string, baconLine: Bacon -> string, selected: string)
    returns (t: Option<Target>)
    requires forall k :: k in sessionKeys ==> k in sessionsMap
    requires forall k :: k in baconKeys ==> k in baconsMap
    ensures t == PickedTarget(sessionKeys, sessionsMap, baconKeys, baconsMap, sessionLine, baconLine, selected)
  {
    var sessionOptions := RenderOptions(sessionKeys, sessionsMap, sessionLine);
    var baconOptions := RenderOptions(baconKeys, baconsMap, baconLine);
    var options := sessionOptions + baconOptions;
    var index := FindOption(options, selected);
    if index.None? {
      return None;
    }
    if index.value < |sessionKeys| {
      return Some(SessionTarget(sessionsMap[sessionKeys[index.value]]));
    }
    return Some(BaconTarget(baconsMap[baconKeys[index.value - |sessionKeys|]]));
  }

  /** The outcome of `use`: by id when an id argument is given, interactively otherwise. */
  function UseOutcome(idArg: string, sessions: Outcome<seq<Session>>, bacons: Outcome<seq<Bacon>>,
                      sessionLine: Session -> string, baconLine: Bacon -> string, selected: string): Outcome<Option<Target>>
  {
    if idArg != "" then
      match SessionOrBaconByID(idArg, sessions, bacons)
      case Ok(t) => Ok(Some(t))
      case Fail(e) => Fail(e)
    else Selection(sessions, bacons, sessionLine, baconLine, selected)
  }

  /** `use` with an id argument never leaves the choice to the picker and never comes back empty-handed without an error. */
  lemma UseByIdDecides(idArg: string, sessions: Outcome<seq<Session>>, bacons: Outcome<seq<Bacon>>,
                       sessionLine: Session -> string, baconLine: Bacon -> string, selected: string)
    requires idArg != ""
    ensures var r := UseOutcome(idArg, sessions, bacons, sessionLine, baconLine, selected);
      r.Fail? || (r.value.Some? && (r.value.value.SessionTarget? ==> HasPrefix(r.value.value.session.id, idArg))
                                && (r.value.value.BaconTarget? ==> HasPrefix(r.value.value.bacon.id, idArg)))
  {
  }

  /**
   * UseCmd: an error is printed and nothing changes; a chosen session or
   * bacon becomes the only active target; a picked line that matched no
   * option changes nothing.
   */
  method UseCmd(con: Console, idArg: string, sessions: Outcome<seq<Session>>, bacons: Outcome<seq<Bacon>>,
                sessionLine: Session -> string, baconLine: Bacon -> string, selected: string)
    modifies con
    ensures var u := UseOutcome(idArg, sessions, bacons, sessionLine, baconLine, selected);
      match u
      case Fail(e) =>
        con.output == old(con.output) + [ErrorText(e)] &&
        con.activeSession == old(con.activeSession) && con.activeBacon == old(con.activeBacon)
      case Ok(None) =>
        con.output == old(con.output) &&
        con.activeSession == old(con.activeSession) && con.activeBacon == old(con.activeBacon)
      case Ok(Some(SessionTarget(s))) =>
        con.output == old(con.output) + ["Active session " + s.name + " (" + s.id + ")"] &&
        con.activeSession == Some(s) && con.activeBacon == None
      case Ok(Some(BaconTarget(b))) =>
        con.output == old(con.output) + ["Active bacon " + b.name + " (" + b.id + ")"] &&
        con.activeSession == None && con.activeBacon == Some(b)
    ensures con.socks == old(con.socks) && con.callbacks == old(con.callbacks)
    ensures con.rpcs == old(con.rpcs) && con.runs == old(con.runs)
  {
    var r: Outcome<Option<Target>>;
    if idArg != "" {
      var t := SessionOrBaconByID(idArg, sessions, bacons);
      r := if t.Ok? then Ok(Some(t.value)) else Fail(t.error);
    } else {
      r := SelectSessionOrBacon(sessions, bacons, sessionLine, baconLine, selected);
    }
    if r.Fail? {
      con.Print(ErrorText(r.error));
      return;
    }
    if r.value.Some? {
      match r.value.value
      case SessionTarget(s) =>
        con.Print("Active session " + s.name + " (" + s.id + ")");
        con.SetActive(Some(s), None);
      case BaconTarget(b) =>
        con.Print("Active bacon " + b.name + " (" + b.id + ")");
        con.SetActive(None, Some(b));
    }
  }

  /** The message `use bacons` prints for a failed pick. */
  function UseBaconError(e: ClientError): (msg: string)
    ensures e == NoBacons ==> msg == "No bacon available"
    ensures e == NoSelection ==> msg == "No bacon selected"
    ensures e != NoBacons && e != NoSelection ==> msg == ErrorText(e)
  {
    match e
    case NoBacons => "No bacon available"
    case NoSelection => "No bacon selected"
    case _ => ErrorText(e)
  }

  /** UseBaconCmd: the picked bacon becomes the only active target; otherwise the failure is printed and nothing changes. */
  method UseBaconCmd(con: Console, listing: Outcome<seq<Bacon>>, line: Bacon -> string, selected: string)
    modifies con
    ensures var r := BaconSelection(listing, line, selected);
      match r
      case Ok(b) =>
        con.activeSession == None && con.activeBacon == Some(b) &&
        con.output == old(con.output) + ["Active bacon " + b.name + " (" + b.id + ")"]
      case Fail(e) =>
        con.activeSession == old(con.activeSession) && con.activeBacon == old(con.activeBacon) &&
        con.output == old(con.output) + [UseBaconError(e)]
    ensures con.socks == old(con.socks) && con.callbacks == old(con.callbacks)
    ensures con.rpcs == old(con.rpcs) && con.runs == old(con.runs)
  {
    var r := SelectBacon(listing, line, selected);
    if r.Ok? {
      con.SetActive(None, Some(r.value));
      con.Print("Active bacon " + r.value.name + " (" + r.value.id + ")");
    } else {
      con.Print(UseBaconError(r.error));
    }
  }
}
