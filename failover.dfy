/**
 * The request lifecycle of one fetch session: the abort controller, the
 * endpoint outcomes, and the loop that tries the Overpass endpoints in order,
 * moving on only when an endpoint is busy or unreachable.
 */
module Failover {
  import opened Common

  /** The two interchangeable Overpass instances, tried in this order. */
  const ApiEndpoints: seq<string> := [
    "https://overpass-api.de/api/interpreter",
    "https://overpass.kumi.systems/api/interpreter"
  ]

  /** Milliseconds after which the session's timer aborts its controller. */
  const RequestTimeout: nat := 20000

  /** A JavaScript error: its `name` ("Error", "AbortError", "TypeError", ...) and `message`. */
  datatype Error = Error(name: string, message: string)

  predicate IsAbortError(e: Error)
  {
    e.name == "AbortError"
  }

  /** What one `await fetch(endpoint, ...)` yields: a response with a status, or a rejection. */
  datatype Outcome = Response(status: nat) | Rejected(error: Error)

  /** `response.ok`. */
  predicate IsOk(status: nat)
  {
    200 <= status <= 299
  }

  /** The statuses the loop treats as "servers busy, try the next one". */
  predicate IsBusy(status: nat)
  {
    status == 429 || status == 504
  }

  /** The error a busy endpoint leaves in `lastError`: its message names the status. */
  function BusyError(status: nat): (e: Error)
    ensures e.name == "Error"
    ensures var p := "API servers are busy (status: ";
      && |e.message| == |p| + |NatToString(status)| + 1 && e.message[..|p|] == p
      && e.message[|p|..|e.message| - 1] == NatToString(status) && e.message[|e.message| - 1] == ')'
  {
    Error("Error", "API servers are busy (status: " + NatToString(status) + ")")
  }

  /** The error any other failed status leaves in `lastError`: its message ends with the status. */
  function ApiError(status: nat): (e: Error)
    ensures e.name == "Error"
    ensures var p := "Overpass API error! status: ";
      && |e.message| == |p| + |NatToString(status)| && e.message[..|p|] == p
      && e.message[|p|..] == NatToString(status)
  {
    Error("Error", "Overpass API error! status: " + NatToString(status))
  }

  /** An outcome after which the next endpoint is tried: a busy status, or a rejection that is not an abort. */
  predicate Retryable(o: Outcome)
  {
    match o
    case Response(status) => IsBusy(status)
    case Rejected(e) => !IsAbortError(e)
  }

  /** The error `lastError` holds after a failed outcome. */
  function ErrorOf(o: Outcome): Error
  {
    match o
    case Response(status) => if IsBusy(status) then BusyError(status) else ApiError(status)
    case Rejected(e) => e
  }

  /** `response` and `lastError` when the endpoint loop ends. */
  datatype LoopEnd = LoopEnd(response: Option<nat>, lastError: Option<Error>)
  {
    predicate Succeeded() { response.Some? && IsOk(response.value) }
  }

  /**
   * The endpoint loop from some point on, given the outcomes of the endpoints
   * still to try and whether the session's signal is aborted when the loop
   * checks it. A rejected fetch leaves `response` as it was.
   */
  function Failover(aborted: bool, outcomes: seq<Outcome>, response: Option<nat>, lastError: Option<Error>): (r: LoopEnd)
    ensures aborted || outcomes == [] ==> r == LoopEnd(response, lastError)
    ensures (response.None? || !IsOk(response.value)) && r.Succeeded() ==> r.lastError.None?
    ensures r.lastError.None? && r != LoopEnd(response, lastError) ==> r.Succeeded()
    ensures r.response.Some? && r.response != response ==>
      exists k :: 0 <= k < |outcomes| && outcomes[k] == Response(r.response.value)
    decreases |outcomes|
  {
    if outcomes == [] || aborted then LoopEnd(response, lastError)
    else match outcomes[0]
      case Response(status) =>
        if IsOk(status) then LoopEnd(Some(status), None)
        else if IsBusy(status) then Failover(aborted, outcomes[1..], Some(status), Some(BusyError(status)))
        else LoopEnd(Some(status), Some(ApiError(status)))
      case Rejected(e) =>
        if IsAbortError(e) then LoopEnd(response, Some(e))
        else Failover(aborted, outcomes[1..], response, Some(e))
  }

  /** The whole loop, from `response = null` and `lastError = null`. */
  function RunEndpoints(aborted: bool, outcomes: seq<Outcome>): (r: LoopEnd)
    ensures r.lastError.None? <==> r.Succeeded() || Tried(aborted, outcomes) == 0
    ensures Tried(aborted, outcomes) == 0 ==> r == LoopEnd(None, None)
  {
    FailoverReportsLastTried(aborted, outcomes, None, None);
    Failover(aborted, outcomes, None, None)
  }

  /** How many endpoints the loop contacts. */
  function Tried(aborted: bool, outcomes: seq<Outcome>): (n: nat)
    ensures n <= |outcomes|
    ensures aborted ==> n == 0
    ensures !aborted && outcomes != [] ==> n >= 1
    decreases |outcomes|
  {
    if outcomes == [] || aborted then 0
    else if Retryable(outcomes[0]) then 1 + Tried(aborted, outcomes[1..])
    else 1
  }

  /**
   * Endpoint `j` is contacted exactly when the signal is not aborted and
   * every endpoint before it was busy or unreachable: the endpoints are tried
   * in order, one after the other, and the loop stops at the first outcome
   * that is not retryable.
   */
  lemma {:induction false} TriedIsRetryablePrefix(aborted: bool, outcomes: seq<Outcome>, j: nat)
    requires j < |outcomes|
    ensures Tried(aborted, outcomes) <= |outcomes|
    ensures j < Tried(aborted, outcomes) <==> !aborted && forall i :: 0 <= i < j ==> Retryable(outcomes[i])
    decreases j
  {
    if aborted {
    } else if j == 0 {
    } else {
      TriedIsRetryablePrefix(aborted, outcomes[1..], j - 1);
      assert forall i :: 1 <= i < j ==> outcomes[i] == outcomes[1..][i - 1];
      if Retryable(outcomes[0]) {
        assert (forall i :: 0 <= i < j ==> Retryable(outcomes[i])) <==>
               (forall i :: 0 <= i < j - 1 ==> Retryable(outcomes[1..][i]));
      }
    }
  }

  /**
   * The loop's result is decided by the last endpoint it contacted: success
   * exactly when that endpoint answered 2xx, otherwise `lastError` is that
   * endpoint's error (a busy or API error naming its status, or the
   * rejection). When nothing was contacted the loop state is untouched.
   */
  lemma {:induction false} FailoverReportsLastTried(aborted: bool, outcomes: seq<Outcome>, response: Option<nat>, lastError: Option<Error>)
    requires response.None? || !IsOk(response.value)
    ensures var n := Tried(aborted, outcomes);
            var end := Failover(aborted, outcomes, response, lastError);
            && (n == 0 ==> end == LoopEnd(response, lastError))
            && (n > 0 ==> (end.Succeeded() <==> outcomes[n - 1].Response? && IsOk(outcomes[n - 1].status)))
            && (n > 0 && !end.Succeeded() ==> end.lastError == Some(ErrorOf(outcomes[n - 1])))
            && (end.Succeeded() ==> end.lastError.None? && outcomes[n - 1] == Response(end.response.value))
    decreases |outcomes|
  {
    if outcomes != [] && !aborted {
      var rest := outcomes[1..];
      match outcomes[0]
      case Response(status) =>
        if IsOk(status) {
          assert Tried(aborted, outcomes) == 1;
          assert Failover(aborted, outcomes, response, lastError) == LoopEnd(Some(status), None);
        } else if IsBusy(status) {
          FailoverReportsLastTried(aborted, rest, Some(status), Some(BusyError(status)));
          ShiftLastTried(aborted, outcomes);
          assert Failover(aborted, outcomes, response, lastError)
              == Failover(aborted, rest, Some(status), Some(BusyError(status)));
        } else {
          assert Tried(aborted, outcomes) == 1;
          assert Failover(aborted, outcomes, response, lastError) == LoopEnd(Some(status), Some(ApiError(status)));
        }
      case Rejected(e) =>
        if IsAbortError(e) {
          assert Tried(aborted, outcomes) == 1;
          assert Failover(aborted, outcomes, response, lastError) == LoopEnd(response, Some(e));
        } else {
          FailoverReportsLastTried(aborted, rest, response, Some(e));
          ShiftLastTried(aborted, outcomes);
          assert Failover(aborted, outcomes, response, lastError) == Failover(aborted, rest, response, Some(e));
        }
    }
  }

  /** After a retryable first outcome, the last endpoint tried is the last one tried among the rest. */
  lemma ShiftLastTried(aborted: bool, outcomes: seq<Outcome>)
    requires outcomes != [] && !aborted && Retryable(outcomes[0])
    ensures Tried(aborted, outcomes) == 1 + Tried(aborted, outcomes[1..])
    ensures Tried(aborted, outcomes[1..]) > 0 ==>
      outcomes[Tried(aborted, outcomes) - 1] == outcomes[1..][Tried(aborted, outcomes[1..]) - 1]
  {
  }

  /** The first 2xx answer ends the loop with success, whatever the later endpoints would say. */
  lemma FirstOkWins(outcomes: seq<Outcome>, status: nat)
    requires outcomes != [] && outcomes[0] == Response(status) && IsOk(status)
    ensures RunEndpoints(false, outcomes) == LoopEnd(Some(status), None)
    ensures Tried(false, outcomes) == 1
  {
  }

  /** A status that is neither 2xx nor busy stops the loop at once with an API error. */
  lemma HardErrorStops(outcomes: seq<Outcome>, status: nat)
    requires outcomes != [] && outcomes[0] == Response(status) && !IsOk(status) && !IsBusy(status)
    ensures RunEndpoints(false, outcomes) == LoopEnd(Some(status), Some(ApiError(status)))
    ensures Tried(false, outcomes) == 1
  {
  }

  /** An aborted signal contacts no endpoint and leaves `response` and `lastError` null. */
  lemma AbortedTriesNothing(outcomes: seq<Outcome>)
    ensures RunEndpoints(true, outcomes) == LoopEnd(None, None)
    ensures Tried(true, outcomes) == 0
  {
  }

  /** When every endpoint is busy, all are tried and the error names the LAST status. */
  lemma {:induction false} AllBusyReportsLastStatus(outcomes: seq<Outcome>, response: Option<nat>, lastError: Option<Error>)
    requires outcomes != []
    requires forall i :: 0 <= i < |outcomes| ==> outcomes[i].Response? && IsBusy(outcomes[i].status)
    ensures var last := outcomes[|outcomes| - 1].status;
            Failover(false, outcomes, response, lastError) == LoopEnd(Some(last), Some(BusyError(last)))
    ensures Tried(false, outcomes) == |outcomes|
    decreases |outcomes|
  {
    if |outcomes| > 1 {
      var st := outcomes[0].status;
      AllBusyReportsLastStatus(outcomes[1..], Some(st), Some(BusyError(st)));
    }
  }

  /** The session's abort signal. */
  class AbortController {
    var aborted: bool

    constructor ()
      ensures !aborted
    {
      aborted := false;
    }

    /** `controller.abort()`: the signal stays aborted from now on. */
    method Abort()
      modifies this
      ensures aborted
    {
      aborted := true;
    }
  }

  /**
   * `for (const endpoint of API_ENDPOINTS)`: `outcomes[i]` is what fetching
   * `ApiEndpoints[i]` yields. Checks the signal before each endpoint, stops
   * on a 2xx answer, a non-busy status or an abort, and moves on after a busy
   * status or another rejection.
   */
  method TryEndpoints(controller: AbortController, outcomes: seq<Outcome>) returns (response: Option<nat>, lastError: Option<Error>, ghost tried: nat)
    requires |outcomes| == |ApiEndpoints|
    ensures LoopEnd(response, lastError) == RunEndpoints(controller.aborted, outcomes)
    ensures tried == Tried(controller.aborted, outcomes)
  {
    response, lastError := None, None;
    tried := 0;
    var i := 0;
    while i < |ApiEndpoints|
      invariant 0 <= i <= |ApiEndpoints| && tried == i
      invariant Failover(controller.aborted, outcomes[i..], response, lastError) == RunEndpoints(controller.aborted, outcomes)
      invariant Tried(controller.aborted, outcomes) == i + Tried(controller.aborted, outcomes[i..])
    {
      if controller.aborted {
        break;
      }
      tried := tried + 1;
      match outcomes[i]
      case Response(status) =>
        response := Some(status);
        if IsOk(status) {
          lastError := None;
          break;
        }
        if IsBusy(status) {
          lastError := Some(BusyError(status));
          assert outcomes[i + 1..] == outcomes[i..][1..];
          i := i + 1;
          continue;
        }
        lastError := Some(ApiError(status));
        break;
      case Rejected(e) =>
        lastError := Some(e);
        if IsAbortError(e) {
          break;
        }
        assert outcomes[i + 1..] == outcomes[i..][1..];
        i := i + 1;
    }
  }
}
