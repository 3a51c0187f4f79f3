/** The timeout stage of the shared client's interceptor chain: it reads the
    `HttpConfig` tag of the request in hand and applies its three bounds to
    this call only, before the request goes on to the network. */
module TimeoutInterceptor {
  import opened JavaLang
  import opened TimeoutConfig
  import opened OkHttp

  /** The bounds passed to `withConnectTimeout`, `withReadTimeout` and
      `withWriteTimeout` of the chain. */
  datatype ChainTimeouts = ChainTimeouts(connect: int32, read: int32, write: int32)

  /** The bound a chain applies to one phase. */
  function Bound(t: ChainTimeouts, p: Phase): int32
  {
    match p
    case Connect => t.connect
    case Read => t.read
    case Write => t.write
  }

  /** `Optional.of(x).orElse(fallback)` on a reference that may be null. */
  function OrElse(x: Nullable<int32>, fallback: int32): int32
  {
    match x
    case Null => fallback
    case Ref(v) => v
  }

  /** The stage itself: the attached config, or a fresh default config when
      none is attached, read phase by phase. A boxed `int` is never null, so
      the `orElse(60)` fallback never takes effect. */
  function TimeoutStage(request: Request): (t: ChainTimeouts)
    ensures request.configTag.Ref? ==>
      forall p :: Bound(t, p) == Timeout(request.configTag.value, p)
    ensures request.configTag.Null? ==> forall p :: Bound(t, p) == 60
  {
    var config := if request.configTag.Null? then NewHttpConfig() else request.configTag.value;
    ChainTimeouts(
      OrElse(Ref(config.connectTimeoutSeconds), DefaultTimeoutSeconds),
      OrElse(Ref(config.readTimeoutSeconds), DefaultTimeoutSeconds),
      OrElse(Ref(config.writeTimeoutSeconds), DefaultTimeoutSeconds))
  }

  /** One call through the chain: the logging stage passes the request on
      unchanged, the timeout stage fixes the bounds, and `proceed` hands the
      same request to the network under those bounds. */
  function Proceed(request: Request, network: (Request, ChainTimeouts) -> Exchange): (e: Exchange)
    ensures request.configTag.Ref? ==>
      e == network(request, ChainTimeouts(
             Timeout(request.configTag.value, Connect),
             Timeout(request.configTag.value, Read),
             Timeout(request.configTag.value, Write)))
    ensures request.configTag.Null? ==> e == network(request, ChainTimeouts(60, 60, 60))
  {
    network(request, TimeoutStage(request))
  }
}
