/** `HttpUtil.HttpConfig` and its `Builder`: the per-call connect, read and
    write timeouts, in seconds. */
module TimeoutConfig {
  import opened JavaLang

  /** The three phases a timeout bounds. */
  datatype Phase = Connect | Read | Write

  datatype HttpConfig = HttpConfig(
    connectTimeoutSeconds: int32,
    readTimeoutSeconds: int32,
    writeTimeoutSeconds: int32)

  /** The initial value of every field of a fresh config. */
  const DefaultTimeoutSeconds: int32 := 60

  /** The `get…TimeoutSeconds` getters, by phase. */
  function Timeout(c: HttpConfig, p: Phase): int32
  {
    match p
    case Connect => c.connectTimeoutSeconds
    case Read => c.readTimeoutSeconds
    case Write => c.writeTimeoutSeconds
  }

  /** `new HttpConfig()`. */
  function NewHttpConfig(): (c: HttpConfig)
    ensures forall p :: Timeout(c, p) == 60
  {
    HttpConfig(DefaultTimeoutSeconds, DefaultTimeoutSeconds, DefaultTimeoutSeconds)
  }

  /** The `set…TimeoutSeconds` setters, by phase: the chosen phase takes the
      new value and the other two keep theirs. */
  function SetTimeout(c: HttpConfig, p: Phase, seconds: int32): (r: HttpConfig)
    ensures Timeout(r, p) == seconds
    ensures forall q :: q != p ==> Timeout(r, q) == Timeout(c, q)
  {
    match p
    case Connect => c.(connectTimeoutSeconds := seconds)
    case Read => c.(readTimeoutSeconds := seconds)
    case Write => c.(writeTimeoutSeconds := seconds)
  }

  /** Setters of different phases commute, and a second setter of the same
      phase overrides the first. */
  lemma SettersIndependent(c: HttpConfig, p: Phase, q: Phase, s: int32, t: int32)
    ensures p != q ==> SetTimeout(SetTimeout(c, p, s), q, t) == SetTimeout(SetTimeout(c, q, t), p, s)
    ensures SetTimeout(SetTimeout(c, p, s), p, t) == SetTimeout(c, p, t)
  {
    var a := SetTimeout(SetTimeout(c, p, s), q, t);
    var b := SetTimeout(SetTimeout(c, q, t), p, s);
    if p != q {
      assert forall r :: Timeout(a, r) == Timeout(b, r);
      assert Timeout(a, Connect) == Timeout(b, Connect);
      assert Timeout(a, Read) == Timeout(b, Read);
      assert Timeout(a, Write) == Timeout(b, Write);
    }
  }

  /** `HttpConfig.Builder`: a builder wrapping one config it mutates. */
  datatype ConfigBuilder = ConfigBuilder(config: HttpConfig)

  /** `HttpConfig.builder()`: wraps a fresh default config. */
  function NewConfigBuilder(): (b: ConfigBuilder)
    ensures forall p :: Timeout(b.config, p) == DefaultTimeoutSeconds
  {
    ConfigBuilder(NewHttpConfig())
  }

  /** `Builder.connectTimeoutSeconds`, `readTimeoutSeconds`, `writeTimeoutSeconds`. */
  function BuilderSetTimeout(b: ConfigBuilder, p: Phase, seconds: int32): (r: ConfigBuilder)
    ensures Timeout(r.config, p) == seconds
    ensures forall q :: q != p ==> Timeout(r.config, q) == Timeout(b.config, q)
  {
    ConfigBuilder(SetTimeout(b.config, p, seconds))
  }

  /** `Builder.build()`: hands out the config the builder has been setting. */
  function Build(b: ConfigBuilder): (c: HttpConfig)
    ensures forall p :: Timeout(c, p) == Timeout(b.config, p)
  {
    b.config
  }

  /** A config built by the builder carries the default in every phase it was
      not given and the builder's last value in every phase it was. */
  lemma BuilderSetsOnlyItsPhase(p: Phase, s: int32)
    ensures Build(NewConfigBuilder()) == NewHttpConfig()
    ensures Timeout(Build(BuilderSetTimeout(NewConfigBuilder(), p, s)), p) == s
    ensures forall q :: q != p ==> Timeout(Build(BuilderSetTimeout(NewConfigBuilder(), p, s)), q) == 60
  {
  }
}
