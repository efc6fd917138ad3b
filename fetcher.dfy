/**
 * `TrashBinFetcher`: the component that fetches the bins of the visible map
 * area. Its asynchronous change handler runs in two steps: `HandleMapChange`
 * is the part before the first `await` (abort the previous request, zoom
 * gate, cache check, start a session) and `CompleteFetch` is the rest of that
 * session (endpoint loop, merge, cache record, status, `finally`). Other
 * handler calls and the session timer can run between the two steps.
 */
module Fetcher {
  import opened Common
  import opened Geo
  import opened Bins
  import opened Failover
  import opened Status

  const MinZoomForFetch: int := 14

  /** What `await response.json()` yields: the response's elements, or the error it rejects with. */
  datatype Body = Parsed(elements: seq<Element>) | BodyFailed(error: Error)

  /**
   * How the session's `try` block ends: with the normalised bins, or by
   * throwing an error, or by throwing `null`. In this model an abort that
   * arrives during the session is seen at the loop's first signal check,
   * which leaves `lastError` null; `ThrownNull` thus stands for the source's
   * `AbortError` rejection of the pending `fetch` or `json()`, and like it
   * changes neither bins, cache nor message.
   */
  datatype Settlement = Fetched(bins: seq<TrashBin>) | Thrown(error: Error) | ThrownNull

  function Settle(end: LoopEnd, body: Body): (r: Settlement)
    ensures r.Fetched? <==> end.Succeeded() && body.Parsed?
    ensures r.Fetched? ==> r.bins == NormaliseAll(body.elements)
    ensures r.Thrown? && end.Succeeded() ==> body == BodyFailed(r.error)
    ensures r.Thrown? && !end.Succeeded() ==> end.lastError == Some(r.error)
    ensures r.ThrownNull? <==> !end.Succeeded() && end.lastError.None?
  {
    if end.Succeeded() then
      match body
      case Parsed(elements) => Fetched(NormaliseAll(elements))
      case BodyFailed(e) => Thrown(e)
    else
      match end.lastError
      case Some(e) => Thrown(e)
      case None => ThrownNull
  }

  /**
   * `mapMessage` after the session: cleared on success, an error text for an
   * error that is not an abort, unchanged otherwise. (For a thrown `null`,
   * reading `err.name` in the `catch` throws again before any message is set.)
   */
  function MessageAfter(mapMessage: Option<string>, s: Settlement): (m: Option<string>)
    ensures s.Fetched? ==> m.None?
    ensures s.Thrown? && !IsAbortError(s.error) ==> m == Some(ErrorText(s.error.message))
    ensures m != mapMessage ==> s.Fetched? || (s.Thrown? && !IsAbortError(s.error))
  {
    match s
    case Fetched(_) => None
    case Thrown(e) => if IsAbortError(e) then mapMessage else Some(ErrorText(e.message))
    case ThrownNull => mapMessage
  }

  /**
   * A session settles with bins exactly when its signal was not aborted, some
   * endpoint answered 2xx after only busy or unreachable endpoints before it,
   * and the body was read.
   */
  lemma FetchedExactlyAfterOkAnswer(aborted: bool, outcomes: seq<Outcome>, body: Body)
    ensures Settle(RunEndpoints(aborted, outcomes), body).Fetched? <==>
      && !aborted && body.Parsed?
      && exists k :: 0 <= k < |outcomes| && outcomes[k].Response? && IsOk(outcomes[k].status)
                     && forall j :: 0 <= j < k ==> Retryable(outcomes[j])
  {
    var n := Tried(aborted, outcomes);
    var end := RunEndpoints(aborted, outcomes);
    FailoverReportsLastTried(aborted, outcomes, None, None);
    if end.Succeeded() {
      var k := n - 1;
      TriedIsRetryablePrefix(aborted, outcomes, k);
    }
    if !aborted && exists k :: 0 <= k < |outcomes| && outcomes[k].Response? && IsOk(outcomes[k].status)
                              && forall j :: 0 <= j < k ==> Retryable(outcomes[j]) {
      var k :| 0 <= k < |outcomes| && outcomes[k].Response? && IsOk(outcomes[k].status)
               && forall j :: 0 <= j < k ==> Retryable(outcomes[j]);
      TriedIsRetryablePrefix(aborted, outcomes, k);
      if k + 1 < |outcomes| {
        TriedIsRetryablePrefix(aborted, outcomes, k + 1);
      }
      assert n == k + 1;
    }
  }

  /** A session whose signal was aborted (superseded, or timed out) changes neither bins, cache nor message. */
  lemma AbortedSessionIsSilent(outcomes: seq<Outcome>, body: Body, mapMessage: Option<string>)
    ensures Settle(RunEndpoints(true, outcomes), body) == ThrownNull
    ensures MessageAfter(mapMessage, Settle(RunEndpoints(true, outcomes), body)) == mapMessage
  {
  }

  /** A session that was not aborted always ends with bins or with an error: it never throws `null`. */
  lemma LiveSessionReportsAnError(outcomes: seq<Outcome>, body: Body)
    requires outcomes != []
    ensures Settle(RunEndpoints(false, outcomes), body) != ThrownNull
  {
    FailoverReportsLastTried(false, outcomes, None, None);
  }

  /** Every endpoint busy: the message names the last endpoint's status. */
  lemma AllBusyShowsLastStatus(outcomes: seq<Outcome>, body: Body, mapMessage: Option<string>)
    requires outcomes != []
    requires forall i :: 0 <= i < |outcomes| ==> outcomes[i].Response? && IsBusy(outcomes[i].status)
    ensures var last := outcomes[|outcomes| - 1].status;
            MessageAfter(mapMessage, Settle(RunEndpoints(false, outcomes), body))
              == Some(ErrorText("API servers are busy (status: " + NatToString(last) + ")"))
  {
    AllBusyReportsLastStatus(outcomes, None, None);
  }

  /** A status other than 2xx, 429 or 504 from the first endpoint is shown at once as an API error. */
  lemma HardErrorShowsApiError(outcomes: seq<Outcome>, body: Body, mapMessage: Option<string>, status: nat)
    requires outcomes != [] && outcomes[0] == Response(status) && !IsOk(status) && !IsBusy(status)
    ensures MessageAfter(mapMessage, Settle(RunEndpoints(false, outcomes), body))
              == Some(ErrorText("Overpass API error! status: " + NatToString(status)))
  {
    HardErrorStops(outcomes, status);
  }

  /** One started session: its abort controller and the view it fetches. */
  datatype Session = Session(controller: AbortController, view: Bounds)

  class TrashBinFetcher {
    var trashBins: seq<TrashBin>
    var loadingBins: bool
    var mapMessage: Option<string>
    var abortControllerRef: AbortController?
    /** The rectangles fetched successfully, in order; nothing is ever removed. */
    var fetchedAreas: seq<Bounds>
    /** The controllers of sessions that have started and not yet completed. */
    ghost var pending: set<AbortController>

    /**
     * Bin ids are unique; the controller ref, when set, belongs to a pending
     * session; and every other pending session has been aborted.
     */
    ghost predicate Valid()
      reads this, pending
    {
      && DistinctIds(trashBins)
      && (abortControllerRef != null ==> abortControllerRef in pending)
      && (forall c :: c in pending && !c.aborted ==> c == abortControllerRef)
    }

    constructor ()
      ensures Valid()
      ensures trashBins == [] && !loadingBins && mapMessage == None
      ensures abortControllerRef == null && fetchedAreas == [] && pending == {}
    {
      trashBins := [];
      loadingBins := false;
      mapMessage := None;
      abortControllerRef := null;
      fetchedAreas := [];
      pending := {};
    }

    /** At most one session is in flight without having been aborted. */
    lemma AtMostOneLiveSession()
      requires Valid()
      ensures forall c1, c2 :: c1 in pending && c2 in pending && !c1.aborted && !c2.aborted ==> c1 == c2
    {
    }

    /**
     * The handler up to its first `await`, for a map now showing `view` at
     * `zoom`. Returns the session it starts, if any.
     */
    method HandleMapChange(zoom: int, view: Bounds) returns (session: Option<Session>)
      requires Valid()
      modifies this, abortControllerRef
      ensures Valid()
      ensures old(abortControllerRef) != null ==> old(abortControllerRef).aborted
      ensures trashBins == old(trashBins) && fetchedAreas == old(fetchedAreas)
      ensures zoom < MinZoomForFetch ==>
        && session.None? && !loadingBins && mapMessage == Some(ZoomInMessage)
        && abortControllerRef == old(abortControllerRef) && pending == old(pending)
      ensures zoom >= MinZoomForFetch && IsCached(fetchedAreas, view) ==>
        && session.None? && !loadingBins && mapMessage == None
        && abortControllerRef == old(abortControllerRef) && pending == old(pending)
      ensures zoom >= MinZoomForFetch && !IsCached(fetchedAreas, view) ==>
        && session.Some? && session.value.view == view
        && fresh(session.value.controller) && !session.value.controller.aborted
        && abortControllerRef == session.value.controller
        && loadingBins && mapMessage == Some(UpdatingMessage)
        && pending == old(pending) + {session.value.controller}
    {
      if abortControllerRef != null {
        abortControllerRef.Abort();
      }
      if zoom < MinZoomForFetch {
        mapMessage := Some(ZoomInMessage);
        loadingBins := false;
        return None;
      }
      if IsCached(fetchedAreas, view) {
        loadingBins := false;
        mapMessage := None;
        return None;
      }
      loadingBins := true;
      mapMessage := Some(UpdatingMessage);
      var controller := new AbortController();
      abortControllerRef := controller;
      pending := pending + {controller};
      session := Some(Session(controller, view));
    }

    /** The session timer fires before the endpoint loop is over and aborts the session's controller. */
    method TimerFires(s: Session)
      requires Valid() && s.controller in pending
      modifies s.controller
      ensures Valid() && s.controller.aborted
    {
      s.controller.Abort();
    }

    /**
     * The rest of session `s`: `outcomes[i]` is what fetching
     * `ApiEndpoints[i]` yields and `body` what reading the successful
     * response yields; `s.controller.aborted` is whether the session was
     * aborted meanwhile.
     */
    method CompleteFetch(s: Session, outcomes: seq<Outcome>, body: Body)
      requires Valid() && s.controller in pending
      requires |outcomes| == |ApiEndpoints|
      modifies this
      ensures Valid()
      ensures pending == old(pending) - {s.controller}
      ensures !loadingBins
      ensures abortControllerRef == if old(abortControllerRef) == s.controller then null else old(abortControllerRef)
      ensures var settled := Settle(RunEndpoints(s.controller.aborted, outcomes), body);
        && fetchedAreas == (if settled.Fetched? then old(fetchedAreas) + [s.view] else old(fetchedAreas))
        && (settled.Fetched? ==> IsMergeOf(trashBins, old(trashBins), settled.bins))
        && (!settled.Fetched? ==> trashBins == old(trashBins))
        && mapMessage == MessageAfter(old(mapMessage), settled)
    {
      var response, lastError, _ := TryEndpoints(s.controller, outcomes);
      var thrown: Option<Error> := None;
      if response.Some? && IsOk(response.value) {
        match body
        case Parsed(elements) =>
          var newBins := NormaliseAll(elements);
          var merged := MergeBins(trashBins, newBins);
          MergeHasDistinctIds(merged, trashBins, newBins);
          trashBins := merged;
          fetchedAreas := fetchedAreas + [s.view];
          mapMessage := None;
        case BodyFailed(e) =>
          thrown := Some(e);
      } else {
        thrown := lastError;
      }
      if thrown.Some? && !IsAbortError(thrown.value) {
        mapMessage := Some(ErrorText(thrown.value.message));
      }
      // finally
      loadingBins := false;
      if abortControllerRef == s.controller {
        abortControllerRef := null;
      }
      pending := pending - {s.controller};
    }
  }

  /** A busy first endpoint and a 2xx second one, with a readable body, settle with the body's bins. */
  lemma BusyThenOkFetches(outcomes: seq<Outcome>, e: Element)
    requires outcomes == [Response(429), Response(200)]
    ensures Settle(RunEndpoints(false, outcomes), Parsed([e])) == Fetched(NormaliseAll([e]))
  {
    assert outcomes[1..] == [Response(200)];
    assert Failover.Failover(false, outcomes[1..], Some(429), Some(BusyError(429))) == LoopEnd(Some(200), None);
    assert RunEndpoints(false, outcomes) == LoopEnd(Some(200), None);
  }

  /** The first merge of a one-element batch shows exactly that bin. */
  lemma FirstBatchIsShown(r: seq<TrashBin>, e: Element)
    requires IsMergeOf(r, [], NormaliseAll([e]))
    ensures r == NormaliseAll([e])
  {
    MergeIntoEmptyIsBatch(r, NormaliseAll([e]));
  }

  /**
   * A client: the first endpoint is busy and the second answers; the view is
   * then cached, and a view inside it later triggers no request.
   */
  method BusyThenOkScenario(view: Bounds, inner: Bounds, e: Element)
    requires Contains(view, inner)
  {
    var f := new TrashBinFetcher();
    var s := f.HandleMapChange(15, view);
    var outcomes := [Response(429), Response(200)];
    var expected := NormaliseAll([e]);
    BusyThenOkFetches(outcomes, e);
    f.CompleteFetch(s.value, outcomes, Parsed([e]));
    assert f.fetchedAreas == [view];
    assert f.mapMessage == None && !f.loadingBins;
    FirstBatchIsShown(f.trashBins, e);
    RecordedAreaCoversItsViews([], view, inner);
    var again := f.HandleMapChange(16, inner);
    assert again.None? && f.trashBins == expected && f.mapMessage == None;
  }

  /**
   * A client: a second change supersedes a running session. The first
   * session's late completion changes neither bins, cache nor message and
   * leaves the newer controller in place, but its `finally` clears
   * `loadingBins` while the newer session is still running.
   */
  method SupersededSessionScenario(a: Bounds, b: Bounds, e: Element)
  {
    var f := new TrashBinFetcher();
    var first := f.HandleMapChange(15, a);
    var second := f.HandleMapChange(15, b);
    assert first.value.controller.aborted && first.value.controller != second.value.controller;
    f.CompleteFetch(first.value, [Response(200), Response(200)], Parsed([e]));
    assert f.trashBins == [] && f.fetchedAreas == [];
    assert f.abortControllerRef == second.value.controller;
    assert !f.loadingBins && f.mapMessage == Some(UpdatingMessage);
    assert OverlayOf(f.loadingBins, f.mapMessage) == Banner(UpdatingMessage);
    f.CompleteFetch(second.value, [Response(200), Response(200)], Parsed([e]));
    assert f.fetchedAreas == [b] && f.abortControllerRef == null && f.pending == {};
  }

  /**
   * A client: the session timer fires before any endpoint answers. The
   * session completes as an aborted one: no bins, no cache entry, no error,
   * loading cleared, and `mapMessage` still "Updating bins...". The banner
   * then shows "Updating bins..." until the map changes again.
   */
  method TimedOutScenario(view: Bounds, e: Element)
  {
    var f := new TrashBinFetcher();
    var s := f.HandleMapChange(15, view);
    f.TimerFires(s.value);
    f.CompleteFetch(s.value, [Response(200), Response(200)], Parsed([e]));
    assert f.trashBins == [] && f.fetchedAreas == [] && f.abortControllerRef == null;
    assert !f.loadingBins && f.mapMessage == Some(UpdatingMessage);
    assert OverlayOf(f.loadingBins, f.mapMessage) == Banner(UpdatingMessage);
  }

  /** A client: zooming out after bins were fetched keeps them and issues no request. */
  method ZoomOutScenario(view: Bounds, e: Element)
  {
    var f := new TrashBinFetcher();
    var s := f.HandleMapChange(14, view);
    f.CompleteFetch(s.value, [Response(200), Response(504)], Parsed([e]));
    var bins := f.trashBins;
    var none := f.HandleMapChange(13, view);
    assert none.None? && f.trashBins == bins && f.mapMessage == Some(ZoomInMessage);
    assert DisplayedMessage(f.loadingBins, f.mapMessage) == Some(ZoomInMessage);
  }
}
