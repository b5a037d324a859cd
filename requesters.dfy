/** The requester: a pending map of submissions, a dispatch step that selects
    one of them, and the bookkeeping around the HTTP call. Threads and
    busy-waiting are not modelled: every transition is one atomic step, the
    clock `now` is a parameter and the outcome of the HTTP call is an input. */
module Requesters {

  import opened Wrappers
  import opened Exceptions
  import opened Routes
  import opened Requests

  /** A response callback (`Consumer<Response>`), known only by its identity. */
  datatype Handler = Handler(id: nat)

  /** The part of an okhttp response the requester looks at. */
  datatype Response = Response(code: int, body: string)

  /** What the HTTP call produced: a response with any status code, or an I/O failure. */
  datatype HttpOutcome = Responded(response: Response) | IOFailure

  /** The HTTP request `execute` hands to okhttp. */
  datatype HttpCall = HttpCall(httpMethod: string, url: string, authorization: string, body: Option<RequestBody>)

  /** One pass of the dispatch loop: it exits, idles on an empty map, keeps
      waiting for the rate limit, or selects a pending request. */
  datatype DispatchOutcome = Stopped | Idle | Waiting | Selected(request: Request)

  /** One check of a caller's wait loop: go ahead and execute, keep waiting,
      or fail. */
  datatype WaitStatus = Proceed | KeepWaiting | Abort(error: JavaException)

  /** Spacing after a response, one second in milliseconds. */
  const RateLimitMillis: int := 1000

  const ClearedMessage := "Requester has been shutdown and forced a clear of queue"

  /** The `Authorization` header value for an API key. */
  function Authorization(apiKey: string): (header: string)
    ensures |header| == |apiKey| + 6
    ensures header[..6] == "OAuth " && header[6..] == apiKey
  {
    "OAuth " + apiKey
  }

  /** The status switch of `execute`: three codes raise an error, every other
      code (5xx included) hands the response back. */
  function Classify(response: Response): (r: Result<Response, JavaException>)
    ensures r.Success? <==> response.code !in {401, 404, 422}
    ensures r.Success? ==> r.value == response
    ensures response.code == 401 ==> r == Failure(IllegalAccessError("Could not authenticate"))
    ensures response.code == 404 ==> r == Failure(NoSuchElementException("The requested resource could not be found"))
    ensures response.code == 422 ==> r == Failure(IllegalAccessError("Unprocessable entity"))
  {
    match response.code
    case 401 => Failure(IllegalAccessError("Could not authenticate"))
    case 404 => Failure(NoSuchElementException("The requested resource could not be found"))
    case 422 => Failure(IllegalAccessError("Unprocessable entity"))
    case _ => Success(response)
  }

  /** What an asynchronous submission passes to its callback once `execute`
      returned: only a non-null response to a non-null handler is delivered. */
  function Delivery(handler: Option<Handler>, result: Result<Option<Response>, JavaException>): (delivered: Option<(Handler, Response)>)
    ensures delivered.Some? <==> handler.Some? && result.Success? && result.value.Some?
    ensures delivered.Some? ==> delivered.value == (handler.value, result.value.value)
  {
    match (handler, result)
    case (Some(h), Success(Some(response))) => Some((h, response))
    case _ => None
  }

  class Requester {
    const apiKey: string
    /** Earliest time, in milliseconds, at which a new selection need not wait. */
    var nextRequestAt: int
    /** Pending submissions, keyed by object identity, each with its callback. */
    var queue: map<Request, Option<Handler>>
    /** The request whose caller may execute now, if any. */
    var nextExecution: Request?
    var shutdown: bool
    /** Whether the dispatch loop has exited; its thread never resumes. */
    var stopped: bool

    constructor (apiKey: string, now: int)
      ensures this.apiKey == apiKey && nextRequestAt == now
      ensures queue == map[] && nextExecution == null && !shutdown && !stopped
    {
      this.apiKey := apiKey;
      nextRequestAt := now;
      queue := map[];
      nextExecution := null;
      shutdown := false;
      stopped := false;
    }

    /** The dispatch loop's condition: it runs until shut down and drained. */
    predicate Running()
      reads this
    {
      !shutdown || queue != map[]
    }

    /** The registration both `queue` (no callback) and `queueAsync` (with
        its callback) start with. */
    method Register(request: Request, handler: Option<Handler>)
      modifies this
      ensures queue == old(queue)[request := handler]
      ensures nextExecution == old(nextExecution) && nextRequestAt == old(nextRequestAt) && shutdown == old(shutdown)
      ensures stopped == old(stopped)
    {
      queue := queue[request := handler];
    }

    /** One check of a caller's wait loop for its `request`. */
    function Poll(request: Request): (status: WaitStatus)
      reads this
      ensures status == Proceed <==> nextExecution == request
      ensures status == KeepWaiting <==> nextExecution != request && request in queue
      ensures status.Abort? <==> nextExecution != request && request !in queue
      ensures status.Abort? ==> status.error == InternalError(ClearedMessage)
    {
      if nextExecution == request then Proceed
      else if request in queue then KeepWaiting
      else Abort(InternalError(ClearedMessage))
    }

    /** One pass of the dispatch loop. Once the loop has exited it stays
        exited. Otherwise it exits when shut down and drained, idles on an
        empty map, waits while a previous selection is still set and the rate
        limit has not expired, or selects some pending request: the map is
        unordered. */
    method DispatchStep(now: int) returns (outcome: DispatchOutcome)
      modifies this
      ensures outcome == Stopped <==> old(stopped) || !old(Running())
      ensures stopped <==> outcome == Stopped
      ensures outcome == Idle <==> !old(stopped) && !old(shutdown) && old(queue) == map[]
      ensures outcome == Waiting <==> !old(stopped) && old(queue) != map[] && now <= old(nextRequestAt) && old(nextExecution) != null
      ensures outcome.Selected? ==> outcome.request in old(queue) && queue == old(queue) - {outcome.request} && nextExecution == outcome.request
      ensures !outcome.Selected? ==> queue == old(queue) && nextExecution == old(nextExecution)
      ensures nextRequestAt == old(nextRequestAt) && shutdown == old(shutdown)
    {
      if stopped {
        outcome := Stopped;
        return;
      }
      if queue == map[] {
        if shutdown {
          stopped := true;
          outcome := Stopped;
        } else {
          outcome := Idle;
        }
        return;
      }
      if now <= nextRequestAt && nextExecution != null {
        outcome := Waiting;
        return;
      }
      assert queue.Keys != {};
      var request :| request in queue;
      nextExecution := request;
      queue := queue - {request};
      outcome := Selected(request);
    }

    /** `execute`: sends `request` and receives `outcome`. A response moves the
        rate limit to a second after `now`; both paths clear the selection; an
        I/O failure yields no response and leaves the rate limit alone. */
    method Execute(request: Request, outcome: HttpOutcome, now: int) returns (call: HttpCall, result: Result<Option<Response>, JavaException>)
      modifies this
      ensures call == HttpCall(request.compiledRoute.route.httpMethod.Name(), request.compiledRoute.compiledUrl,
                               Authorization(apiKey), request.requestBody)
      ensures nextExecution == null
      ensures outcome.Responded? ==> nextRequestAt == now + RateLimitMillis
      ensures outcome.Responded? && Classify(outcome.response).Success? ==> result == Success(Some(outcome.response))
      ensures outcome.Responded? && Classify(outcome.response).Failure? ==> result == Failure(Classify(outcome.response).error)
      ensures outcome.IOFailure? ==> nextRequestAt == old(nextRequestAt) && result == Success(None)
      ensures queue == old(queue) && shutdown == old(shutdown) && stopped == old(stopped)
    {
      var route := request.compiledRoute;
      call := HttpCall(route.route.httpMethod.Name(), route.compiledUrl, Authorization(apiKey), request.requestBody);
      match outcome
      case Responded(response) =>
        nextRequestAt := now + RateLimitMillis;
        nextExecution := null;
        var classified := Classify(response);
        if classified.Failure? {
          result := Failure(classified.error);
        } else {
          result := Success(Some(response));
        }
      case IOFailure =>
        nextExecution := null;
        result := Success(None);
    }

    /** `shutdown`: only raises the flag; pending requests are still dispatched. */
    method Shutdown()
      modifies this
      ensures shutdown
      ensures queue == old(queue) && nextExecution == old(nextExecution) && nextRequestAt == old(nextRequestAt)
      ensures stopped == old(stopped)
    {
      shutdown := true;
    }

    /** `shutdownNow`: raises the flag and drops every pending request. */
    method ShutdownNow()
      modifies this
      ensures shutdown && queue == map[]
      ensures nextExecution == old(nextExecution) && nextRequestAt == old(nextRequestAt)
      ensures stopped == old(stopped)
    {
      Shutdown();
      queue := map[];
    }
  }

  /** Requests are keyed by identity: two submissions built from the same
      route and body are two pending entries, though they print alike. */
  method IdenticalRequestsStayDistinct(permitsRequestBody: string -> bool, route: CompiledRoute, body: Option<RequestBody>, now: int)
    returns (pending: nat, sameText: bool)
    ensures pending == 2 && sameText
  {
    var requester := new Requester("key", now);
    var a := new Request(permitsRequestBody, route, body);
    var b := new Request(permitsRequestBody, route, body);
    requester.Register(a, None);
    requester.Register(b, None);
    pending := |requester.queue|;
    sameText := a.ToString() == b.ToString();
  }

  /** `shutdownNow` before selection: the caller's wait loop fails with the
      clear-of-queue error and the dispatch loop exits. */
  method ShutdownNowAbortsWaiter(permitsRequestBody: string -> bool, route: CompiledRoute, body: Option<RequestBody>, now: int)
    returns (status: WaitStatus, step: DispatchOutcome)
    ensures status == Abort(InternalError(ClearedMessage))
    ensures step == Stopped
  {
    var requester := new Requester("key", now);
    var request := new Request(permitsRequestBody, route, body);
    requester.Register(request, None);
    requester.ShutdownNow();
    status := requester.Poll(request);
    step := requester.DispatchStep(now);
  }

  /** `shutdown` keeps pending requests: the loop still selects the pending
      one, its caller proceeds, and only the drained loop exits. */
  method ShutdownDrainsQueue(permitsRequestBody: string -> bool, route: CompiledRoute, body: Option<RequestBody>, now: int)
    returns (first: DispatchOutcome, status: WaitStatus, second: DispatchOutcome)
    ensures first.Selected? && status == Proceed
    ensures second == Stopped
  {
    var requester := new Requester("key", now);
    var request := new Request(permitsRequestBody, route, body);
    requester.Register(request, None);
    requester.Shutdown();
    first := requester.DispatchStep(now);
    status := requester.Poll(request);
    second := requester.DispatchStep(now);
  }

  /** Once the drained loop has exited after `shutdown`, a later submission
      is never selected: its caller keeps waiting. */
  method StoppedLoopNeverSelects(permitsRequestBody: string -> bool, route: CompiledRoute, body: Option<RequestBody>, now: int, later: int)
    returns (first: DispatchOutcome, second: DispatchOutcome, status: WaitStatus)
    ensures first == Stopped && second == Stopped
    ensures status == KeepWaiting
  {
    var requester := new Requester("key", now);
    requester.Shutdown();
    first := requester.DispatchStep(now);
    var request := new Request(permitsRequestBody, route, body);
    requester.Register(request, None);
    second := requester.DispatchStep(later);
    status := requester.Poll(request);
  }

  /** The one-second spacing holds only while a selection is set: with one
      request selected the loop waits, but once `execute` has cleared the
      selection the next request is selected at the very same millisecond,
      although the rate limit then lies a second ahead. */
  method SpacingOnlyWhileSelected(permitsRequestBody: string -> bool, route: CompiledRoute, body: Option<RequestBody>,
                                  response: Response, now: int)
    returns (first: DispatchOutcome, second: DispatchOutcome, third: DispatchOutcome, limit: int)
    ensures first.Selected? && second == Waiting
    ensures third.Selected? && third.request != first.request
    ensures now < limit == now + RateLimitMillis
  {
    var requester := new Requester("key", now);
    var a := new Request(permitsRequestBody, route, body);
    var b := new Request(permitsRequestBody, route, body);
    requester.Register(a, None);
    requester.Register(b, None);
    assert a in requester.queue;
    first := requester.DispatchStep(now);
    second := requester.DispatchStep(now);
    var _, _ := requester.Execute(first.request, Responded(response), now);
    limit := requester.nextRequestAt;
    var other := if first.request == a then b else a;
    assert other in requester.queue;
    third := requester.DispatchStep(now);
  }

  /** An I/O failure clears the selection without moving the rate limit and
      gives the asynchronous caller's callback nothing. */
  method IOFailureSkipsCallback(permitsRequestBody: string -> bool, route: CompiledRoute, body: Option<RequestBody>,
                                handler: Handler, now: int, later: int)
    returns (limit: int, delivered: Option<(Handler, Response)>, next: DispatchOutcome)
    ensures limit == now && delivered == None
    ensures next == Idle
  {
    var requester := new Requester("key", now);
    var request := new Request(permitsRequestBody, route, body);
    requester.Register(request, Some(handler));
    var step := requester.DispatchStep(now);
    var _, result := requester.Execute(request, IOFailure, later);
    limit := requester.nextRequestAt;
    delivered := Delivery(Some(handler), result);
    next := requester.DispatchStep(later);
  }
}
