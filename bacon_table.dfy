/**
 * The bacon table as a value: a sequence of bacon rows keyed by id, with
 * the lookup, upsert (gorm `Save`) and delete the server performs on it.
 */
module BaconTable {
  import opened Common
  import opened Records

  /** No two rows share a bacon id. */
  ghost predicate UniqueBaconIds(bs: seq<Bacon>) {
    forall i, j :: 0 <= i < j < |bs| ==> bs[i].id != bs[j].id
  }

  /** db.BaconByID: the position of the row with id `id`. */
  function FindBacon(bs: seq<Bacon>, id: string): (r: Option<nat>)
    ensures r.Some? ==> r.value < |bs| && bs[r.value].id == id
    ensures r.None? ==> forall k :: 0 <= k < |bs| ==> bs[k].id != id
  {
    FirstWhere(bs, (b: Bacon) => b.id == id)
  }

  function LookupBacon(bs: seq<Bacon>, id: string): Option<Bacon> {
    match FindBacon(bs, id)
    case None => None
    case Some(i) => Some(bs[i])
  }

  /** gorm `Save` of a bacon row: replaces the row with the same id, or appends a new one. */
  function Upsert(bs: seq<Bacon>, b: Bacon): seq<Bacon> {
    match FindBacon(bs, b.id)
    case None => bs + [b]
    case Some(i) => bs[i := b]
  }

  lemma LookupUnique(bs: seq<Bacon>, k: nat)
    requires UniqueBaconIds(bs) && k < |bs|
    ensures LookupBacon(bs, bs[k].id) == Some(bs[k])
  {
    var r := FindBacon(bs, bs[k].id);
    assert r.Some?;
    assert r.value == k;
  }

  /**
   * Saving a row makes it the one found under its id, leaves every other id
   * as it was, keeps ids unique and adds a row only for an unknown id.
   */
  lemma UpsertEffect(bs: seq<Bacon>, b: Bacon)
    requires UniqueBaconIds(bs)
    ensures UniqueBaconIds(Upsert(bs, b))
    ensures LookupBacon(Upsert(bs, b), b.id) == Some(b)
    ensures forall id :: id != b.id ==> LookupBacon(Upsert(bs, b), id) == LookupBacon(bs, id)
    ensures |Upsert(bs, b)| == if FindBacon(bs, b.id).Some? then |bs| else |bs| + 1
  {
    var u := Upsert(bs, b);
    assert u[|u| - 1] == b || FindBacon(bs, b.id).Some?;
    assert forall k :: 0 <= k < |u| ==> u[k] == b || (k < |bs| && u[k] == bs[k] && bs[k].id != b.id);
    assert UniqueBaconIds(u);
    forall id ensures LookupBacon(u, id) == (if id == b.id then Some(b) else LookupBacon(bs, id)) {
      if id == b.id {
        var k :| 0 <= k < |u| && u[k] == b;
        LookupUnique(u, k);
      } else {
        match FindBacon(bs, id)
        case None =>
        case Some(k) =>
          LookupUnique(u, k);
          LookupUnique(bs, k);
      }
    }
  }

  /** Saving the same row twice is the same as saving it once. */
  lemma UpsertIdempotent(bs: seq<Bacon>, b: Bacon)
    requires UniqueBaconIds(bs)
    ensures Upsert(Upsert(bs, b), b) == Upsert(bs, b)
  {
    UpsertEffect(bs, b);
    var u := Upsert(bs, b);
    var k := FindBacon(u, b.id).value;
    LookupUnique(u, k);
    assert u[k] == b;
  }

  /** gorm `Delete` of a bacon row: every row with that id goes. */
  function RemoveBacon(bs: seq<Bacon>, id: string): seq<Bacon> {
    Filter(bs, (b: Bacon) => b.id != id)
  }

  /** After deletion the id is unknown and every other row is still there. */
  lemma RemoveBaconEffect(bs: seq<Bacon>, id: string)
    requires UniqueBaconIds(bs)
    ensures UniqueBaconIds(RemoveBacon(bs, id))
    ensures LookupBacon(RemoveBacon(bs, id), id) == None
    ensures forall b :: b in bs && b.id != id ==> b in RemoveBacon(bs, id)
    ensures forall other :: other != id ==> LookupBacon(RemoveBacon(bs, id), other) == LookupBacon(bs, other)
  {
    var r := RemoveBacon(bs, id);
    FilterPairwise(bs, (b: Bacon) => b.id != id, (a: Bacon, c: Bacon) => a.id != c.id);
    RemoveBaconGone(bs, id);
    forall other | other != id
      ensures LookupBacon(r, other) == LookupBacon(bs, other)
    {
      RemoveBaconOther(bs, id, other);
    }
  }

  /** The deleted id is found no more. */
  lemma RemoveBaconGone(bs: seq<Bacon>, id: string)
    ensures LookupBacon(RemoveBacon(bs, id), id) == None
  {
    var r := RemoveBacon(bs, id);
    forall k | 0 <= k < |r|
      ensures r[k].id != id
    {
      assert r[k] in r;
    }
  }

  /** Another id is found, after the deletion, on the same row as before. */
  lemma RemoveBaconOther(bs: seq<Bacon>, id: string, other: string)
    requires UniqueBaconIds(bs) && UniqueBaconIds(RemoveBacon(bs, id)) && other != id
    ensures LookupBacon(RemoveBacon(bs, id), other) == LookupBacon(bs, other)
  {
    var r := RemoveBacon(bs, id);
    if FindBacon(bs, other).Some? {
      var k := FindBacon(bs, other).value;
      assert bs[k] in r;
      var m :| 0 <= m < |r| && r[m] == bs[k];
      LookupUnique(r, m);
      LookupUnique(bs, k);
    } else {
      forall m | 0 <= m < |r|
        ensures r[m].id != other
      {
        assert r[m] in r;
      }
    }
  }
}
