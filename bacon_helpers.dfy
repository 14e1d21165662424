/**
 * The client's bacon lookups (client/command/beacons/helpers.go): lookup by
 * id or id prefix, the non-empty listing, and the interactive picker.
 */
module BaconHelpers {
  import opened Common
  import opened Records
  import opened Strings
  import opened Sorting
  import opened Picking
  import opened ClientState

  predicate MatchesId(baconId: string, b: Bacon) {
    b.id == baconId || HasPrefix(b.id, baconId)
  }

  /**
   * GetBacon: a listing error is passed on, an empty listing is ErrNoBacons,
   * otherwise the first bacon whose id equals or starts with `baconId`, or
   * ErrBaconNotFound when there is none.
   */
  function GetBacon(listing: Outcome<seq<Bacon>>, baconId: string): (r: Outcome<Bacon>)
    ensures listing.Fail? ==> r == Fail(listing.error)
    ensures listing == Ok([]) ==> r == Fail(NoBacons)
    ensures r.Ok? ==> listing.Ok? && HasPrefix(r.value.id, baconId)
    ensures r.Ok? ==>
      exists i :: 0 <= i < |listing.value| && listing.value[i] == r.value &&
        forall j :: 0 <= j < i ==> !HasPrefix(listing.value[j].id, baconId)
    ensures listing.Ok? && listing.value != [] && r.Fail? ==>
      r.error == BaconNotFound && forall b :: b in listing.value ==> !HasPrefix(b.id, baconId)
  {
    match listing
    case Fail(e) => Fail(e)
    case Ok(bs) =>
      if |bs| == 0 then Fail(NoBacons)
      else match FirstWhere(bs, (b: Bacon) => MatchesId(baconId, b))
        case None => Fail(BaconNotFound)
        case Some(i) => Ok(bs[i])
  }

  /** GetBacons: a listing error is passed on, an empty listing is ErrNoBacons, otherwise the listing unchanged. */
  function GetBacons(listing: Outcome<seq<Bacon>>): (r: Outcome<seq<Bacon>>)
    ensures r.Ok? <==> listing.Ok? && listing.value != []
    ensures r.Ok? ==> r.value == listing.value
    ensures r.Fail? ==> r.error == (if listing.Fail? then listing.error else NoBacons)
  {
    match listing
    case Fail(e) => Fail(e)
    case Ok(bs) => if |bs| == 0 then Fail(NoBacons) else Ok(bs)
  }

  /** The bacon ids in ascending order, once each: the order SelectBacon lists its options in. */
  function BaconKeys(bs: seq<Bacon>): (keys: seq<string>)
    ensures StrictlySorted(keys)
    ensures forall k :: k in keys <==> k in ById(bs, BaconId)
  {
    SortedDistinctSpec(MapSeq(bs, BaconId));
    SortedDistinct(MapSeq(bs, BaconId))
  }

  /**
   * The choice SelectBacon makes, given the listing, how each option line
   * is rendered and the line the user picked ("" when none).
   */
  function BaconSelection(listing: Outcome<seq<Bacon>>, line: Bacon -> string, selected: string): Outcome<Bacon> {
    match listing
    case Fail(e) => Fail(e)
    case Ok(bs) =>
      if |bs| == 0 then Fail(NoBacons)
      else
        var m := ById(bs, BaconId);
        var keys := BaconKeys(bs);
        if selected == "" then Fail(NoSelection)
        else match IndexOf(OptionLines(keys, m, line), selected)
          case None => Fail(NoSelection)
          case Some(i) => Ok(m[keys[i]])
  }

  /** A picked bacon is one of the listing, and the line the user picked is its line. */
  lemma BaconSelectionSound(listing: Outcome<seq<Bacon>>, line: Bacon -> string, selected: string)
    ensures var r := BaconSelection(listing, line, selected);
      r.Ok? ==> listing.Ok? && r.value in listing.value && line(r.value) == selected
    ensures var r := BaconSelection(listing, line, selected);
      r.Fail? && listing.Ok? && listing.value != [] ==> r.error == NoSelection
  {
  }

  /**
   * With unique ids and distinct option lines, picking the line of a listed
   * bacon selects exactly that bacon.
   */
  lemma BaconSelectionComplete(bs: seq<Bacon>, line: Bacon -> string, b: Bacon)
    requires forall i, j :: 0 <= i < j < |bs| ==> bs[i].id != bs[j].id
    requires forall x, y :: x in bs && y in bs && line(x) == line(y) ==> x == y
    requires b in bs && line(b) != ""
    ensures BaconSelection(Ok(bs), line, line(b)) == Ok(b)
  {
    var m := ById(bs, BaconId);
    var keys := BaconKeys(bs);
    var i :| 0 <= i < |bs| && bs[i] == b;
    ByIdLast(bs, BaconId, i);
    assert b.id in keys;
    var k :| 0 <= k < |keys| && keys[k] == b.id;
    PickedOfLine(bs, m, keys, line, k, b);
  }

  /** With option lines unique among the listed bacons, the line of `m[keys[k]]` picks it back. */
  lemma PickedOfLine(bs: seq<Bacon>, m: map<string, Bacon>, keys: seq<string>, line: Bacon -> string, k: int, b: Bacon)
    requires forall x, y :: x in bs && y in bs && line(x) == line(y) ==> x == y
    requires forall x :: x in keys ==> x in m && m[x] in bs
    requires 0 <= k < |keys| && m[keys[k]] == b
    ensures var r := IndexOf(OptionLines(keys, m, line), line(b)); r.Some? && m[keys[r.value]] == b
  {
    OptionOfKey(keys, m, line, k);
  }

  /**
   * The choice SelectBacon makes as the Go code is written: the option
   * lines are rendered into one text, the text is split at newlines, and
   * the picked option's index is looked up in `keys`. `None` is an index
   * past the keys, where Go's `keys[index]` panics.
   */
  function BaconSelectionAsWritten(listing: Outcome<seq<Bacon>>, line: Bacon -> string, selected: string): Option<Outcome<Bacon>> {
    match listing
    case Fail(e) => Some(Fail(e))
    case Ok(bs) =>
      if |bs| == 0 then Some(Fail(NoBacons))
      else
        var m := ById(bs, BaconId);
        var keys := BaconKeys(bs);
        if selected == "" then Some(Fail(NoSelection))
        else match IndexOf(SplitOptions(OptionLines(keys, m, line)), selected)
          case None => Some(Fail(NoSelection))
          case Some(i) => if i < |keys| then Some(Ok(m[keys[i]])) else None
  }

  /** While no listed bacon's line holds a newline, the split changes nothing: one option per bacon. */
  lemma BaconSelectionAsWrittenAgrees(listing: Outcome<seq<Bacon>>, line: Bacon -> string, selected: string)
    requires listing.Ok? ==> forall b :: b in listing.value ==> '\n' !in line(b)
    ensures BaconSelectionAsWritten(listing, line, selected) == Some(BaconSelection(listing, line, selected))
  {
    if listing.Ok? && |listing.value| > 0 {
      var bs := listing.value;
      var m := ById(bs, BaconId);
      var keys := BaconKeys(bs);
      var options := OptionLines(keys, m, line);
      assert forall i :: 0 <= i < |options| ==> options[i] == line(m[keys[i]]) && m[keys[i]] in bs;
      SplitOptionsPlain(options);
    }
  }

  /** The only key of a one-bacon listing is that bacon's id. */
  lemma OneBaconKeys(b: Bacon)
    ensures BaconKeys([b]) == [b.id]
  {
    assert forall k :: k in ById([b], BaconId) <==> k == b.id;
    StrictlySortedUnique(BaconKeys([b]), [b.id]);
  }

  /**
   * As written, a bacon whose host name holds a newline is offered as two
   * options; picking the second one indexes past the keys, where the Go
   * code panics, while one option per bacon reports no selection.
   */
  lemma SplitRowOutOfRange(b: Bacon)
    requires b.hostname == "a\nb"
    ensures BaconSelectionAsWritten(Ok([b]), HostnameLine, "b") == None
    ensures BaconSelection(Ok([b]), HostnameLine, "b") == Fail(NoSelection)
  {
    OneBaconKeys(b);
    var m := ById([b], BaconId);
    KeyedEntry([b], BaconId, b);
    assert b.hostname == "a" + "\n" + "b";
    assert OptionLines([b.id], m, HostnameLine) == ["a" + "\n" + "b"];
    SplitRowTwoOptions("a", "b", []);
    assert ["a" + "\n" + "b"] + [] == ["a" + "\n" + "b"] && ["a", "b"] + [] == ["a", "b"];
    assert SplitOptions(["a" + "\n" + "b"]) == ["a", "b"];
    assert IndexOf(["a", "b"], "b") == Some(1);
    assert IndexOf(["a" + "\n" + "b"], "b") == None;
  }

  /** An option line made of the host name alone, enough to show the split. */
  function HostnameLine(b: Bacon): string { b.hostname }

  /**
   * SelectBacon: the listing's bacons in a map by id, the map's keys sorted
   * ascending, one option per key, and the option the user picked mapped
   * back through its index to keys[index].
   */
  method SelectBacon(listing: Outcome<seq<Bacon>>, line: Bacon -> string, selected: string) returns (r: Outcome<Bacon>)
    ensures r == BaconSelection(listing, line, selected)
  {
    if listing.Fail? {
      return Fail(listing.error);
    }
    var bacons := listing.value;
    if |bacons| == 0 {
      return Fail(NoBacons);
    }
    var baconsMap := MapByKey(bacons, BaconId);
    var keys := SortedMapKeys(baconsMap);
    StrictlySortedUnique(keys, BaconKeys(bacons));
    var options := RenderOptions(keys, baconsMap, line);
    if selected == "" {
      return Fail(NoSelection);
    }
    var index := FindOption(options, selected);
    if index.None? {
      return Fail(NoSelection);
    }
    return Ok(baconsMap[keys[index.value]]);
  }
}
