/**
 * Bins and their merge: normalising the elements an Overpass response holds
 * into bins, and merging a batch of bins into the displayed list through a
 * `Map` keyed by id, where new entries overwrite old ones.
 */
module Bins {
  import opened Common
  import opened Geo
  import opened BinTags

  /** A displayed bin: an OpenStreetMap id, a position and the element's tags. */
  datatype TrashBin = TrashBin(id: int, lat: int, lon: int, tags: Tags)

  /**
   * An element of the response. `lat`/`lon` are the element's own coordinates
   * (set for nodes); `center` is the centre Overpass computes for ways and
   * relations (`out center`).
   */
  datatype Element = Element(id: int, kind: string, lat: int, lon: int, center: LatLng, tags: Tags)

  /** A node keeps its own coordinates, any other element takes its centre; id and tags are copied. */
  function Normalise(e: Element): (b: TrashBin)
    ensures b.id == e.id && b.tags == e.tags
    ensures e.kind == "node" ==> b.lat == e.lat && b.lon == e.lon
    ensures e.kind != "node" ==> b.lat == e.center.lat && b.lon == e.center.lng
  {
    TrashBin(e.id,
             if e.kind == "node" then e.lat else e.center.lat,
             if e.kind == "node" then e.lon else e.center.lng,
             e.tags)
  }

  /** `data.elements.map(...)`: one bin per element, in order. */
  function NormaliseAll(elements: seq<Element>): (bins: seq<TrashBin>)
    ensures |bins| == |elements|
    ensures forall i :: 0 <= i < |elements| ==>
      && bins[i].id == elements[i].id
      && bins[i].tags == elements[i].tags
      && (elements[i].kind == "node" ==> bins[i].lat == elements[i].lat && bins[i].lon == elements[i].lon)
      && (elements[i].kind != "node" ==> bins[i].lat == elements[i].center.lat && bins[i].lon == elements[i].center.lng)
  {
    if elements == [] then [] else [Normalise(elements[0])] + NormaliseAll(elements[1..])
  }

  /** The ids of a list of bins, in order. */
  function Ids(bins: seq<TrashBin>): (ids: seq<int>)
    ensures |ids| == |bins|
    ensures forall i :: 0 <= i < |bins| ==> ids[i] == bins[i].id
  {
    seq(|bins|, i requires 0 <= i < |bins| => bins[i].id)
  }

  predicate Distinct(s: seq<int>)
  {
    forall i, j :: 0 <= i < j < |s| ==> s[i] != s[j]
  }

  /** No two bins share an id. */
  predicate DistinctIds(bins: seq<TrashBin>)
  {
    forall i, j :: 0 <= i < j < |bins| ==> bins[i].id != bins[j].id
  }

  /**
   * The keys of a `Map` after setting the keys of `s` in order: each key once,
   * at the position where it was first set.
   */
  function Dedup(s: seq<int>): (r: seq<int>)
    ensures Distinct(r)
    ensures forall x :: x in r <==> x in s
    decreases |s|
  {
    if s == [] then []
    else
      var d := Dedup(s[..|s| - 1]);
      if s[|s| - 1] in d then d else d + [s[|s| - 1]]
  }

  /** The bin with the given id that comes LAST in `s`, if any. */
  function LastWithId(s: seq<TrashBin>, id: int): (r: Option<TrashBin>)
    ensures r.None? <==> forall i :: 0 <= i < |s| ==> s[i].id != id
    ensures r.Some? ==> r.value.id == id && exists i :: 0 <= i < |s| && s[i] == r.value &&
                                               forall j :: i < j < |s| ==> s[j].id != id
    decreases |s|
  {
    if s == [] then None
    else if s[|s| - 1].id == id then Some(s[|s| - 1])
    else LastWithId(s[..|s| - 1], id)
  }

  /** The bin a merge keeps for an id: the last incoming one, else the last existing one. */
  function Winner(prev: seq<TrashBin>, incoming: seq<TrashBin>, id: int): Option<TrashBin>
  {
    var n := LastWithId(incoming, id);
    if n.Some? then n else LastWithId(prev, id)
  }

  /**
   * `r` is the result of merging `incoming` into `prev`: its ids are those of
   * `prev` followed by the new ones of `incoming`, each once and in first-set
   * order, and the bin kept for each id is its `Winner`.
   */
  ghost predicate IsMergeOf(r: seq<TrashBin>, prev: seq<TrashBin>, incoming: seq<TrashBin>)
  {
    && Ids(r) == Dedup(Ids(prev) + Ids(incoming))
    && forall i :: 0 <= i < |r| ==> Winner(prev, incoming, r[i].id) == Some(r[i])
  }

  /** In a list with distinct ids, each bin is the last (the only) one with its id. */
  lemma DistinctLast(s: seq<TrashBin>, k: int)
    requires DistinctIds(s) && 0 <= k < |s|
    ensures LastWithId(s, s[k].id) == Some(s[k])
  {
  }

  /** A merge never holds two bins with the same id. */
  lemma MergeHasDistinctIds(r: seq<TrashBin>, prev: seq<TrashBin>, incoming: seq<TrashBin>)
    requires IsMergeOf(r, prev, incoming)
    ensures DistinctIds(r)
  {
  }

  /** The ids after a merge are exactly the ids before it together with the incoming ones. */
  lemma MergeIdSet(r: seq<TrashBin>, prev: seq<TrashBin>, incoming: seq<TrashBin>, id: int)
    requires IsMergeOf(r, prev, incoming)
    ensures id in Ids(r) <==> id in Ids(prev) || id in Ids(incoming)
  {
  }

  /** Every incoming id is present after the merge, holding the last incoming bin with that id. */
  lemma MergeIncomingWins(r: seq<TrashBin>, prev: seq<TrashBin>, incoming: seq<TrashBin>, k: int)
    requires IsMergeOf(r, prev, incoming) && 0 <= k < |incoming|
    ensures LastWithId(incoming, incoming[k].id).Some?
    ensures LastWithId(incoming, incoming[k].id).value in r
  {
    var id := incoming[k].id;
    assert Ids(incoming)[k] == id;
    MergeIdSet(r, prev, incoming, id);
    var i :| 0 <= i < |r| && Ids(r)[i] == id;
    assert Winner(prev, incoming, id) == Some(r[i]);
  }

  /** An existing bin whose id is not incoming survives the merge unchanged. */
  lemma MergeKeepsOld(r: seq<TrashBin>, prev: seq<TrashBin>, incoming: seq<TrashBin>, k: int)
    requires IsMergeOf(r, prev, incoming) && DistinctIds(prev) && 0 <= k < |prev|
    requires forall j :: 0 <= j < |incoming| ==> incoming[j].id != prev[k].id
    ensures prev[k] in r
  {
    var id := prev[k].id;
    assert Ids(prev)[k] == id;
    MergeIdSet(r, prev, incoming, id);
    var i :| 0 <= i < |r| && Ids(r)[i] == id;
    DistinctLast(prev, k);
    assert Winner(prev, incoming, id) == Some(r[i]);
  }

  /** Every bin after a merge comes from the old list or from the batch. */
  lemma MergeAddsNothingElse(r: seq<TrashBin>, prev: seq<TrashBin>, incoming: seq<TrashBin>, i: int)
    requires IsMergeOf(r, prev, incoming) && 0 <= i < |r|
    ensures r[i] in prev || r[i] in incoming
  {
  }

  /** The merge result is determined by its inputs. */
  lemma MergeIsDeterministic(r1: seq<TrashBin>, r2: seq<TrashBin>, prev: seq<TrashBin>, incoming: seq<TrashBin>)
    requires IsMergeOf(r1, prev, incoming) && IsMergeOf(r2, prev, incoming)
    ensures r1 == r2
  {
  }

  /** Keys already set, set again in any order, leave the keys of a `Map` as they were. */
  lemma {:induction false} DedupAbsorbs(a: seq<int>, b: seq<int>)
    requires Distinct(a)
    requires forall x :: x in b ==> x in a
    ensures Dedup(a + b) == a
    decreases |b|
  {
    if b == [] {
      assert a + b == a;
      DedupOfDistinct(a);
    } else {
      var b' := b[..|b| - 1];
      assert (a + b)[..|a + b| - 1] == a + b';
      DedupAbsorbs(a, b');
      assert (a + b)[|a + b| - 1] == b[|b| - 1];
    }
  }

  lemma {:induction false} DedupOfDistinct(a: seq<int>)
    requires Distinct(a)
    ensures Dedup(a) == a
    decreases |a|
  {
    if a != [] {
      var a' := a[..|a| - 1];
      assert Distinct(a');
      DedupOfDistinct(a');
      assert a[|a| - 1] !in a';
      assert a' + [a[|a| - 1]] == a;
    }
  }

  /** Merging the same batch a second time changes nothing: re-fetching an area is harmless. */
  lemma MergeIsIdempotent(r1: seq<TrashBin>, r2: seq<TrashBin>, prev: seq<TrashBin>, incoming: seq<TrashBin>)
    requires IsMergeOf(r1, prev, incoming) && IsMergeOf(r2, r1, incoming)
    ensures r2 == r1
  {
    MergeHasDistinctIds(r1, prev, incoming);
    forall x | x in Ids(incoming) ensures x in Ids(r1) {
      MergeIdSet(r1, prev, incoming, x);
    }
    DedupAbsorbs(Ids(r1), Ids(incoming));
    assert Ids(r2) == Ids(r1);
    assert |r2| == |r1|;
    forall i | 0 <= i < |r1| ensures r2[i] == r1[i] {
      assert Ids(r2)[i] == Ids(r1)[i];
      var id := r1[i].id;
      if LastWithId(incoming, id).None? {
        DistinctLast(r1, i);
      }
    }
  }

  /** The first merge into an empty list shows exactly the batch, when its ids are distinct. */
  lemma MergeIntoEmptyIsBatch(r: seq<TrashBin>, batch: seq<TrashBin>)
    requires IsMergeOf(r, [], batch) && DistinctIds(batch)
    ensures r == batch
  {
    assert Ids([]) + Ids(batch) == Ids(batch);
    assert Distinct(Ids(batch));
    DedupOfDistinct(Ids(batch));
    assert |r| == |batch|;
    forall i | 0 <= i < |r| ensures r[i] == batch[i] {
      assert Ids(r)[i] == Ids(batch)[i];
      DistinctLast(batch, i);
    }
  }

  /** A JavaScript `Map` from bin ids to bins: insertion-ordered keys and their entries. */
  class BinMap {
    var keys: seq<int>
    var entries: map<int, TrashBin>

    ghost predicate Valid()
      reads this
    {
      Distinct(keys) && forall k :: k in entries <==> k in keys
    }

    constructor ()
      ensures Valid() && keys == [] && entries == map[]
    {
      keys := [];
      entries := map[];
    }

    /** `map.set(key, value)`: a new key goes to the end, an existing key keeps its place. */
    method Set(key: int, value: TrashBin)
      requires Valid()
      modifies this
      ensures Valid()
      ensures entries == old(entries)[key := value]
      ensures keys == if key in old(entries) then old(keys) else old(keys) + [key]
    {
      if key !in entries {
        keys := keys + [key];
      }
      entries := entries[key := value];
    }

    /** `Array.from(map.values())`: the entries in key order. */
    function Values(): (vs: seq<TrashBin>)
      reads this
      requires Valid()
      ensures |vs| == |keys|
      ensures forall i :: 0 <= i < |keys| ==> keys[i] in entries && vs[i] == entries[keys[i]]
    {
      assert forall i :: 0 <= i < |keys| ==> keys[i] in keys;
      ValuesOf(keys, entries)
    }
  }

  function ValuesOf(ks: seq<int>, es: map<int, TrashBin>): (vs: seq<TrashBin>)
    requires forall i :: 0 <= i < |ks| ==> ks[i] in es
    ensures |vs| == |ks|
    ensures forall i :: 0 <= i < |ks| ==> vs[i] == es[ks[i]]
  {
    if ks == [] then [] else [es[ks[0]]] + ValuesOf(ks[1..], es)
  }

  lemma IdsSnoc(s: seq<TrashBin>, b: TrashBin)
    ensures Ids(s + [b]) == Ids(s) + [b.id]
  {
  }

  lemma LastWithIdSnoc(s: seq<TrashBin>, b: TrashBin, id: int)
    ensures LastWithId(s + [b], id) == if b.id == id then Some(b) else LastWithId(s, id)
  {
  }

  lemma DedupSnoc(s: seq<int>, x: int)
    ensures Dedup(s + [x]) == if x in Dedup(s) then Dedup(s) else Dedup(s) + [x]
  {
  }

  /** The keys and entries of a `Map` after `prev` and then `batch` were set into an empty one. */
  ghost predicate FilledWith(keys: seq<int>, entries: map<int, TrashBin>, prev: seq<TrashBin>, batch: seq<TrashBin>)
  {
    && keys == Dedup(Ids(prev) + Ids(batch))
    && forall k :: k in entries ==> Some(entries[k]) == Winner(prev, batch, k)
  }

  /** One `set` of the next bin of the batch keeps `FilledWith`. */
  lemma SetKeepsFilled(keys: seq<int>, entries: map<int, TrashBin>, prev: seq<TrashBin>, batch: seq<TrashBin>, b: TrashBin)
    requires FilledWith(keys, entries, prev, batch)
    requires forall k :: k in entries <==> k in keys
    ensures FilledWith(if b.id in entries then keys else keys + [b.id], entries[b.id := b], prev, batch + [b])
  {
    IdsSnoc(batch, b);
    assert Ids(prev) + Ids(batch + [b]) == (Ids(prev) + Ids(batch)) + [b.id];
    DedupSnoc(Ids(prev) + Ids(batch), b.id);
    forall k ensures LastWithId(batch + [b], k) == if b.id == k then Some(b) else LastWithId(batch, k) {
      LastWithIdSnoc(batch, b, k);
    }
  }

  /** A `Map` filled with the existing bins is the start of the merge of an empty batch. */
  lemma FilledRestart(keys: seq<int>, entries: map<int, TrashBin>, prev: seq<TrashBin>)
    requires FilledWith(keys, entries, [], prev)
    ensures FilledWith(keys, entries, prev, [])
  {
    assert Ids([]) + Ids(prev) == Ids(prev) + Ids([]);
  }

  /** The values of a filled `Map` are the merge. */
  lemma FilledIsMerge(keys: seq<int>, entries: map<int, TrashBin>, prev: seq<TrashBin>, batch: seq<TrashBin>)
    requires FilledWith(keys, entries, prev, batch)
    requires forall i :: 0 <= i < |keys| ==> keys[i] in entries
    ensures IsMergeOf(ValuesOf(keys, entries), prev, batch)
  {
  }

  /**
   * `set`s every bin of `batch` into the map, keyed by its id, in order: the
   * `Map` constructor over an entry list, and the `forEach` over new bins.
   */
  method SetAll(binMap: BinMap, prev: seq<TrashBin>, batch: seq<TrashBin>)
    requires binMap.Valid() && FilledWith(binMap.keys, binMap.entries, prev, [])
    modifies binMap
    ensures binMap.Valid() && FilledWith(binMap.keys, binMap.entries, prev, batch)
  {
    var j := 0;
    assert batch[..0] == [];
    while j < |batch|
      invariant 0 <= j <= |batch|
      invariant binMap.Valid()
      invariant FilledWith(binMap.keys, binMap.entries, prev, batch[..j])
    {
      var b := batch[j];
      assert batch[..j + 1] == batch[..j] + [b];
      SetKeepsFilled(binMap.keys, binMap.entries, prev, batch[..j], b);
      binMap.Set(b.id, b);
      j := j + 1;
    }
    assert batch[..j] == batch;
  }

  /**
   * The merge of `setTrashBins`: a `Map` is filled from the existing bins,
   * every incoming bin is `set` over it, and its values are the new list.
   */
  method MergeBins(prevBins: seq<TrashBin>, newBins: seq<TrashBin>) returns (merged: seq<TrashBin>)
    ensures IsMergeOf(merged, prevBins, newBins)
  {
    var binMap := new BinMap();
    assert Ids([]) + Ids([]) == [];
    SetAll(binMap, [], prevBins);
    FilledRestart(binMap.keys, binMap.entries, prevBins);
    SetAll(binMap, prevBins, newBins);
    merged := binMap.Values();
    FilledIsMerge(binMap.keys, binMap.entries, prevBins, newBins);
  }
}
