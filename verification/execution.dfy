/** The two terminal operations of a `RequestBuilder`. `execute` blocks and
    returns a buffered copy of the response or throws; `executeAsync`
    resolves a future from OkHttp's callback. The network is a parameter:
    it receives the request and the bounds the timeout stage chose, and
    either fails or delivers one response. */
module Execution {
  import opened JavaLang
  import opened TimeoutConfig
  import opened OkHttp
  import opened TimeoutInterceptor
  import opened Builder

  const NullBodyMessage: string := "Response body is null"

  /** `ResponseBody.bytes()`: the whole body, or the `IOException` of a failed read. */
  function ReadAll(body: ResponseBody): (r: Result<seq<byte>>)
    ensures body.Buffered? ==> r == Ok(body.bytes)
    ensures body.Streaming? ==> (r.Ok? <==> body.read.Bytes?)
    ensures r.Ok? && body.Streaming? ==> r.value == body.read.bytes
    ensures r.Thrown? ==> r.exception == IOException(body.read.message)
  {
    match body
    case Streaming(_, Bytes(bytes)) => Ok(bytes)
    case Streaming(_, ReadError(message)) => Thrown(IOException(message))
    case Buffered(_, bytes) => Ok(bytes)
  }

  /** The buffering both modes perform on a received response: a null body is
      an `IllegalStateException`; otherwise the body is read in full and the
      response is copied with an in-memory body of the same content type. */
  function Buffer(response: Response): (r: Result<Response>)
    ensures response.body.Null? ==> r == Thrown(IllegalState(NullBodyMessage))
    ensures r.Ok? <==> response.body.Ref? && ReadAll(response.body.value).Ok?
    ensures response.body.Ref? && ReadAll(response.body.value).Thrown? ==>
      r == Thrown(ReadAll(response.body.value).exception)
    ensures r.Ok? ==> r.value.code == response.code && r.value.headers == response.headers
    ensures r.Ok? ==> r.value.body.Ref? && r.value.body.value.Buffered?
    ensures r.Ok? ==> r.value.body.value.contentType == response.body.value.contentType
    ensures r.Ok? ==> r.value.body.value.bytes == ReadAll(response.body.value).value
  {
    if response.body.Null? then Thrown(IllegalState(NullBodyMessage))
    else
      match ReadAll(response.body.value)
      case Thrown(e) => Thrown(e)
      case Ok(bytes) => Ok(response.(body := Ref(Buffered(response.body.value.contentType, bytes))))
  }

  /** A buffered copy reads back in full, and buffering it again changes
      nothing: the caller never needs the connection again. */
  lemma BufferIsFinal(response: Response)
    requires Buffer(response).Ok?
    ensures ReadAll(Buffer(response).value.body.value) == ReadAll(response.body.value)
    ensures Buffer(Buffer(response).value) == Buffer(response)
  {
  }

  /** The call OkHttp makes for a builder: its request through the chain. */
  function Dispatch(b: RequestBuilder, network: (Request, ChainTimeouts) -> Exchange): Exchange
  {
    Proceed(BuildRequest(b), network)
  }

  /** The blocking path's result, and whether it closed a received response. */
  datatype BlockingResult = BlockingResult(outcome: Result<Response>, closedResponse: bool)

  /** `execute()`: a transport failure is rethrown as is, with no response to
      close; a received response is closed on every path (try-with-resources)
      and yields its buffered copy, an `IllegalStateException` when its body
      is null, or the read's `IOException`. */
  function Execute(b: RequestBuilder, network: (Request, ChainTimeouts) -> Exchange): (e: BlockingResult)
    ensures e.closedResponse <==> Dispatch(b, network).Received?
    ensures Dispatch(b, network).CallFailed? ==>
      e.outcome == Thrown(IOException(Dispatch(b, network).message))
    ensures Dispatch(b, network).Received? && Dispatch(b, network).response.body.Null? ==>
      e.outcome == Thrown(IllegalState(NullBodyMessage))
    ensures e.outcome.Ok? <==>
      && Dispatch(b, network).Received?
      && Dispatch(b, network).response.body.Ref?
      && ReadAll(Dispatch(b, network).response.body.value).Ok?
    ensures e.outcome.Ok? ==>
      && e.outcome.value.code == Dispatch(b, network).response.code
      && e.outcome.value.body.Ref? && e.outcome.value.body.value.Buffered?
      && e.outcome.value.body.value.bytes == ReadAll(Dispatch(b, network).response.body.value).value
  {
    match Dispatch(b, network)
    case CallFailed(message) => BlockingResult(Thrown(IOException(message)), false)
    case Received(response) => BlockingResult(Buffer(response), true)
  }

  // ---------------------------------------------------------------------
  // executeAsync: OkHttp's callback as a small state machine over a future

  /** The one callback OkHttp delivers for an enqueued call. */
  datatype Callback = OnFailure(error: string) | OnResponse(response: Response)

  /** OkHttp answers a failed exchange with `onFailure` and a delivered
      response with `onResponse`. */
  function CallbackFor(exchange: Exchange): Callback
  {
    match exchange
    case CallFailed(message) => OnFailure(message)
    case Received(response) => OnResponse(response)
  }

  /** What a callback does, in order. */
  datatype Effect = Complete(value: Response) | CompleteExceptionally(exception: Exception) | CloseResponse

  /** The callback bodies. `onFailure` fails the future with the transport's
      `IOException`. `onResponse` completes it with the buffered copy; any
      exception while buffering (a null body or a failed read) is caught and
      replaced by an `IOException` saying the body is null; the `finally`
      block then closes the response. */
  function CallbackEffects(cb: Callback): (effects: seq<Effect>)
    ensures cb.OnFailure? ==> effects == [CompleteExceptionally(IOException(cb.error))]
    ensures cb.OnResponse? ==> |effects| == 2 && effects[1] == CloseResponse
    ensures cb.OnResponse? && Buffer(cb.response).Ok? ==>
      effects[0] == Complete(Buffer(cb.response).value)
    ensures cb.OnResponse? && Buffer(cb.response).Thrown? ==>
      effects[0] == CompleteExceptionally(IOException(NullBodyMessage))
  {
    match cb
    case OnFailure(message) => [CompleteExceptionally(IOException(message))]
    case OnResponse(response) =>
      match Buffer(response)
      case Ok(copy) => [Complete(copy), CloseResponse]
      case Thrown(_) => [CompleteExceptionally(IOException(NullBodyMessage)), CloseResponse]
  }

  /** A `CompletableFuture<Response>`. */
  datatype Future = Pending | Completed(value: Response) | CompletedExceptionally(exception: Exception)

  /** One effect on a future: `complete` and `completeExceptionally` take hold
      only while the future is pending; closing the response leaves it alone. */
  function Settle(f: Future, e: Effect): Future
  {
    if !f.Pending? then f
    else
      match e
      case Complete(v) => Completed(v)
      case CompleteExceptionally(x) => CompletedExceptionally(x)
      case CloseResponse => f
  }

  /** Effects applied in order. */
  function Perform(f: Future, effects: seq<Effect>): Future
    decreases |effects|
  {
    if |effects| == 0 then f else Perform(Settle(f, effects[0]), effects[1..])
  }

  predicate Resolves(e: Effect)
  {
    !e.CloseResponse?
  }

  /** How many effects try to resolve the future. */
  function Resolutions(effects: seq<Effect>): nat
    decreases |effects|
  {
    if |effects| == 0 then 0
    else (if Resolves(effects[0]) then 1 else 0) + Resolutions(effects[1..])
  }

  /** The future an effect that resolves it leaves behind. */
  function Outcome(e: Effect): Future
    requires Resolves(e)
  {
    match e
    case Complete(v) => Completed(v)
    case CompleteExceptionally(x) => CompletedExceptionally(x)
  }

  /** Every callback resolves the future exactly once; `onResponse` closes the
      response exactly once, as its last act, and `onFailure` has none to close. */
  lemma CallbackResolvesOnce(cb: Callback)
    ensures Resolutions(CallbackEffects(cb)) == 1
    ensures cb.OnFailure? ==> CloseResponse !in CallbackEffects(cb)
    ensures cb.OnResponse? ==>
      && |CallbackEffects(cb)| == 2
      && CallbackEffects(cb)[1] == CloseResponse
      && Resolves(CallbackEffects(cb)[0])
  {
    var effects := CallbackEffects(cb);
    assert Resolutions(effects) == (if Resolves(effects[0]) then 1 else 0) + Resolutions(effects[1..]);
  }

  /** Once resolved, a future keeps its outcome whatever else is done to it. */
  lemma {:induction false} ResolvedFutureIsFinal(f: Future, effects: seq<Effect>)
    requires !f.Pending?
    ensures Perform(f, effects) == f
    decreases |effects|
  {
    if |effects| > 0 {
      ResolvedFutureIsFinal(Settle(f, effects[0]), effects[1..]);
    }
  }

  /** A pending future ends up with the outcome of the first effect that
      resolves it. */
  lemma {:induction false} FirstResolutionWins(effects: seq<Effect>, i: int)
    requires 0 <= i < |effects| && Resolves(effects[i])
    requires forall k :: 0 <= k < i ==> !Resolves(effects[k])
    ensures Perform(Pending, effects) == Outcome(effects[i])
    decreases |effects|
  {
    if i == 0 {
      ResolvedFutureIsFinal(Outcome(effects[0]), effects[1..]);
    } else {
      assert Settle(Pending, effects[0]) == Pending;
      assert forall k :: 0 <= k < i - 1 ==> effects[1..][k] == effects[k + 1];
      FirstResolutionWins(effects[1..], i - 1);
    }
  }

  /** A pending future stays pending through effects none of which resolves
      it, such as the `finally` block's close. */
  lemma {:induction false} PendingUntilResolved(effects: seq<Effect>)
    requires forall k :: 0 <= k < |effects| ==> !Resolves(effects[k])
    ensures Perform(Pending, effects) == Pending
    decreases |effects|
  {
    if |effects| > 0 {
      assert Settle(Pending, effects[0]) == Pending;
      assert forall k :: 0 <= k < |effects| - 1 ==> effects[1..][k] == effects[k + 1];
      PendingUntilResolved(effects[1..]);
    }
  }

  /** `executeAsync()`, observed once OkHttp has delivered its callback: the
      future is resolved, failed with the transport's `IOException` after
      `onFailure`, and after `onResponse` completed with the buffered copy
      exactly when buffering succeeds, failed with an `IOException` saying
      the body is null otherwise. */
  function ExecuteAsync(b: RequestBuilder, network: (Request, ChainTimeouts) -> Exchange): (f: Future)
    ensures f != Pending
    ensures Dispatch(b, network).CallFailed? ==>
      f == CompletedExceptionally(IOException(Dispatch(b, network).message))
    ensures Dispatch(b, network).Received? ==>
      (f.Completed? <==> Buffer(Dispatch(b, network).response).Ok?)
    ensures Dispatch(b, network).Received? && f.Completed? ==>
      f.value == Buffer(Dispatch(b, network).response).value
    ensures Dispatch(b, network).Received? && !f.Completed? ==>
      f == CompletedExceptionally(IOException(NullBodyMessage))
  {
    var effects := CallbackEffects(CallbackFor(Dispatch(b, network)));
    FirstResolutionWins(effects, 0);
    Perform(Pending, effects)
  }

  /** The future is never left pending. A transport failure fails it with the
      transport's `IOException`; a delivered response completes it with the
      buffered copy `execute` would return, and every other outcome of
      `execute` (a null body or a failed read) becomes an `IOException` saying
      the body is null. */
  lemma AsyncAgreesWithBlocking(b: RequestBuilder, network: (Request, ChainTimeouts) -> Exchange)
    ensures ExecuteAsync(b, network) != Pending
    ensures Execute(b, network).outcome.Ok? ==>
      ExecuteAsync(b, network) == Completed(Execute(b, network).outcome.value)
    ensures Execute(b, network).outcome.Thrown? && !Execute(b, network).closedResponse ==>
      ExecuteAsync(b, network) == CompletedExceptionally(Execute(b, network).outcome.exception)
    ensures Execute(b, network).outcome.Thrown? && Execute(b, network).closedResponse ==>
      ExecuteAsync(b, network) == CompletedExceptionally(IOException(NullBodyMessage))
  {
    var effects := CallbackEffects(CallbackFor(Dispatch(b, network)));
    FirstResolutionWins(effects, 0);
  }

  /** The bounds the network sees are the call's own: for each phase, the
      value of the builder's last setter for it, or 60 seconds when no setter
      for that phase was called. */
  lemma DispatchUsesLatestTimeouts(url: Nullable<string>, m: HttpMethod, steps: seq<Step>, p: Phase)
    requires NewRequestBuilder(url, m).Ok?
    requires Run(NewRequestBuilder(url, m).value, steps).Ok?
    ensures (forall j :: 0 <= j < |steps| ==> TimeoutSetBy(steps[j], p).Null?) ==>
      Bound(TimeoutStage(BuildRequest(Run(NewRequestBuilder(url, m).value, steps).value)), p) == 60
    ensures forall j :: LastTimeoutSetting(steps, p, j) ==>
      Bound(TimeoutStage(BuildRequest(Run(NewRequestBuilder(url, m).value, steps).value)), p)
        == TimeoutSetBy(steps[j], p).value
  {
    RunTimeoutIsLastSet(NewRequestBuilder(url, m).value, steps, p);
  }
}
