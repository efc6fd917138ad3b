/**
 * The spatial cache of the bin fetcher: rectangles that were fetched
 * successfully, and the test whether the current view is covered by one of
 * them. Coordinates are integers (fixed-point degrees) so that containment
 * is exact.
 */
module Geo {

  datatype LatLng = LatLng(lat: int, lng: int)

  /** A map rectangle given by its south-west and north-east corners. */
  datatype Bounds = Bounds(southWest: LatLng, northEast: LatLng)
  {
    function South(): int { southWest.lat }
    function West(): int { southWest.lng }
    function North(): int { northEast.lat }
    function East(): int { northEast.lng }
  }

  /** A rectangle whose south-west corner is not north or east of its north-east corner. */
  predicate WellFormed(b: Bounds)
  {
    b.South() <= b.North() && b.West() <= b.East()
  }

  /**
   * Leaflet's `LatLngBounds.contains(bounds)`: component-wise comparison of
   * the corners. For a well-formed inner rectangle this is: both its corners
   * lie in the outer one.
   */
  predicate Contains(outer: Bounds, inner: Bounds)
    ensures WellFormed(inner) ==>
      (Contains(outer, inner) <==> ContainsPoint(outer, inner.southWest) && ContainsPoint(outer, inner.northEast))
  {
    && outer.South() <= inner.South()
    && outer.West() <= inner.West()
    && inner.North() <= outer.North()
    && inner.East() <= outer.East()
  }

  /** A point lies in a rectangle (borders included). */
  predicate ContainsPoint(b: Bounds, p: LatLng)
  {
    b.South() <= p.lat <= b.North() && b.West() <= p.lng <= b.East()
  }

  /**
   * `fetchedAreas.some(area => area.contains(view))`: the view is cached when
   * SOME SINGLE recorded rectangle contains it.
   */
  function IsCached(areas: seq<Bounds>, view: Bounds): (r: bool)
    ensures r <==> exists i :: 0 <= i < |areas| && Contains(areas[i], view)
  {
    if areas == [] then false
    else Contains(areas[0], view) || IsCached(areas[1..], view)
  }

  /** Containment of rectangles is containment of their points. */
  lemma ContainsMeansAllPoints(outer: Bounds, inner: Bounds, p: LatLng)
    requires Contains(outer, inner) && ContainsPoint(inner, p)
    ensures ContainsPoint(outer, p)
  {
  }

  /** A view nested in a cached view is cached as well. */
  lemma CachedIsClosedUnderNesting(areas: seq<Bounds>, a: Bounds, b: Bounds)
    requires IsCached(areas, a) && Contains(a, b)
    ensures IsCached(areas, b)
  {
  }

  /** Recording a rectangle makes it, and every view inside it, cached. */
  lemma RecordedAreaCoversItsViews(areas: seq<Bounds>, recorded: Bounds, view: Bounds)
    requires Contains(recorded, view)
    ensures IsCached(areas + [recorded], view)
  {
    assert (areas + [recorded])[|areas|] == recorded;
  }

  /** Appending to the cache never un-caches a view. */
  lemma CacheGrowthKeepsCoverage(areas: seq<Bounds>, more: seq<Bounds>, view: Bounds)
    requires IsCached(areas, view)
    ensures IsCached(areas + more, view)
  {
    var i :| 0 <= i < |areas| && Contains(areas[i], view);
    assert (areas + more)[i] == areas[i];
  }

  /**
   * Coverage is not the union of the recorded rectangles: two halves that
   * together hold every point of the view still leave it uncached.
   */
  lemma CoverageIsNotUnion()
    ensures var west := Bounds(LatLng(0, 0), LatLng(10, 5));
            var east := Bounds(LatLng(0, 5), LatLng(10, 10));
            var view := Bounds(LatLng(0, 0), LatLng(10, 10));
            && (forall p :: ContainsPoint(view, p) ==> ContainsPoint(west, p) || ContainsPoint(east, p))
            && !IsCached([west, east], view)
  {
  }
}
