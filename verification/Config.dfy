/** Configuration: defaulting and validation in place, Configure, and the choice of authentication.
    Durations are nanoseconds; an absent duration message is None. */
module Config {
  import opened Registry

  const MS: int := 1_000_000
  const SECOND: int := 1_000 * MS

  datatype Connection = Connection(
    connectionTimeout: Option<int>, operationTimeout: Option<int>, keepAliveInterval: Option<int>,
    maxConnectionsPerHost: int, enableConnectionPooling: bool)

  datatype Retry = Retry(
    enable: bool, maxAttempts: int, initialDelay: Option<int>, maxDelay: Option<int>,
    multiplier: real, jitterFactor: real)

  datatype Monitoring = Monitoring(
    enableMetrics: bool, metricsNamespace: string, enableHealthCheck: bool, healthCheckInterval: Option<int>)

  datatype ProducerOptions = ProducerOptions(
    sendTimeout: Option<int>, maxPendingMessages: int, batchingMaxPublishDelay: Option<int>,
    batchingMaxMessages: int, compressionType: string, hashingScheme: string, messageRoutingMode: string)

  datatype ConsumerOptions = ConsumerOptions(
    subscriptionType: string, subscriptionInitialPosition: string, subscriptionMode: string,
    receiverQueueSize: int, negativeAckDelay: Option<int>, cryptoFailureAction: string)

  datatype OAuth2 = OAuth2(issuerUrl: string, clientId: string, clientSecret: string)
  datatype TlsAuth = TlsAuth(certFile: string, keyFile: string)
  datatype Auth = Auth(kind: string, token: string, oauth2: Option<OAuth2>, tlsAuth: Option<TlsAuth>)

  // ---- The values of a configuration

  datatype ProducerV = ProducerV(enabled: bool, name: string, topic: string, options: Option<ProducerOptions>)

  datatype ConsumerV = ConsumerV(
    enabled: bool, name: string, topics: seq<string>, subscriptionName: string, options: Option<ConsumerOptions>)

  datatype ConfigV = ConfigV(
    serviceUrl: string, connection: Option<Connection>, retry: Option<Retry>, monitoring: Option<Monitoring>,
    producers: seq<Option<ProducerV>>, consumers: seq<Option<ConsumerV>>, auth: Option<Auth>)

  // ---- The objects. A list may hold the same object twice, or nil.

  class Producer {
    var enabled: bool
    var name: string
    var topic: string
    var options: Option<ProducerOptions>

    constructor (v: ProducerV)
      ensures View() == v
    {
      enabled, name, topic, options := v.enabled, v.name, v.topic, v.options;
    }

    function View(): ProducerV
      reads this
    {
      ProducerV(enabled, name, topic, options)
    }
  }

  class Consumer {
    var enabled: bool
    var name: string
    var topics: seq<string>
    var subscriptionName: string
    var options: Option<ConsumerOptions>

    constructor (v: ConsumerV)
      ensures View() == v
    {
      enabled, name, topics, subscriptionName, options := v.enabled, v.name, v.topics, v.subscriptionName, v.options;
    }

    function View(): ConsumerV
      reads this
    {
      ConsumerV(enabled, name, topics, subscriptionName, options)
    }
  }

  function ProducerViews(list: seq<Producer?>): seq<Option<ProducerV>>
    reads set p: Producer | p in list
  {
    seq(|list|, i requires 0 <= i < |list| reads set p: Producer | p in list =>
      if list[i] == null then None else Some(list[i].View()))
  }

  function ConsumerViews(list: seq<Consumer?>): seq<Option<ConsumerV>>
    reads set c: Consumer | c in list
  {
    seq(|list|, i requires 0 <= i < |list| reads set c: Consumer | c in list =>
      if list[i] == null then None else Some(list[i].View()))
  }

  class PulsarConfig {
    var serviceUrl: string
    var connection: Option<Connection>
    var retry: Option<Retry>
    var monitoring: Option<Monitoring>
    var producers: seq<Producer?>
    var consumers: seq<Consumer?>
    var auth: Option<Auth>

    constructor (v: ConfigV, producers: seq<Producer?>, consumers: seq<Consumer?>)
      ensures this.producers == producers && this.consumers == consumers
      ensures serviceUrl == v.serviceUrl && connection == v.connection && retry == v.retry
      ensures monitoring == v.monitoring && auth == v.auth
    {
      serviceUrl, connection, retry, monitoring, auth := v.serviceUrl, v.connection, v.retry, v.monitoring, v.auth;
      this.producers, this.consumers := producers, consumers;
    }

    function View(): ConfigV
      reads this, (set p: Producer | p in producers), (set c: Consumer | c in consumers)
    {
      ConfigV(serviceUrl, connection, retry, monitoring, ProducerViews(producers), ConsumerViews(consumers), auth)
    }
  }

  // ---- What normalisation makes of the values

  const DEFAULT_CONNECTION := Connection(Some(30 * SECOND), Some(30 * SECOND), Some(30 * SECOND), 1, true)
  const DEFAULT_RETRY := Retry(true, 3, Some(100 * MS), Some(30 * SECOND), 2.0, 0.1)
  const DEFAULT_MONITORING := Monitoring(true, "lynx_pulsar", true, Some(30 * SECOND))
  const EMPTY_PRODUCER_OPTIONS := ProducerOptions(None, 0, None, 0, "", "", "")
  const EMPTY_CONSUMER_OPTIONS := ConsumerOptions("", "", "", 0, None, "")

  predicate Positive(d: Option<int>) { d.Some? && d.value > 0 }

  function OrDuration(d: Option<int>, default: int): Option<int> { if Positive(d) then d else Some(default) }
  function OrNumber(n: int, default: int): int { if n > 0 then n else default }
  function OrText(s: string, default: string): string { if s != "" then s else default }

  function NormConnection(c: Connection): Connection {
    Connection(OrDuration(c.connectionTimeout, 30 * SECOND), OrDuration(c.operationTimeout, 30 * SECOND),
               OrDuration(c.keepAliveInterval, 30 * SECOND), OrNumber(c.maxConnectionsPerHost, 1),
               c.enableConnectionPooling)
  }

  function NormRetry(r: Retry): Retry {
    Retry(r.enable, OrNumber(r.maxAttempts, 3), OrDuration(r.initialDelay, 100 * MS),
          OrDuration(r.maxDelay, 30 * SECOND), if r.multiplier > 0.0 then r.multiplier else 2.0, r.jitterFactor)
  }

  function NormMonitoring(m: Monitoring): Monitoring {
    Monitoring(m.enableMetrics, OrText(m.metricsNamespace, "lynx_pulsar"), m.enableHealthCheck,
               OrDuration(m.healthCheckInterval, 30 * SECOND))
  }

  function NormProducerOptions(given: Option<ProducerOptions>): ProducerOptions {
    var o := if given.Some? then given.value else EMPTY_PRODUCER_OPTIONS;
    ProducerOptions(OrDuration(o.sendTimeout, 30 * SECOND), OrNumber(o.maxPendingMessages, 1000),
                    OrDuration(o.batchingMaxPublishDelay, 10 * MS), OrNumber(o.batchingMaxMessages, 1000),
                    OrText(o.compressionType, "none"), OrText(o.hashingScheme, "java_string_hash"),
                    OrText(o.messageRoutingMode, "round_robin"))
  }

  function NormConsumerOptions(given: Option<ConsumerOptions>): ConsumerOptions {
    var o := if given.Some? then given.value else EMPTY_CONSUMER_OPTIONS;
    ConsumerOptions(OrText(o.subscriptionType, "exclusive"), OrText(o.subscriptionInitialPosition, "latest"),
                    OrText(o.subscriptionMode, "durable"), OrNumber(o.receiverQueueSize, 1000),
                    OrDuration(o.negativeAckDelay, 60 * SECOND), OrText(o.cryptoFailureAction, "fail"))
  }

  function NormProducer(p: Option<ProducerV>): Option<ProducerV> {
    if p.None? then None else Some(p.value.(options := Some(NormProducerOptions(p.value.options))))
  }

  function NormConsumer(c: Option<ConsumerV>): Option<ConsumerV> {
    if c.None? then None else Some(c.value.(options := Some(NormConsumerOptions(c.value.options))))
  }

  function Norm(v: ConfigV): ConfigV {
    ConfigV(OrText(v.serviceUrl, "pulsar://localhost:6650"),
            Some(if v.connection.Some? then NormConnection(v.connection.value) else DEFAULT_CONNECTION),
            Some(if v.retry.Some? then NormRetry(v.retry.value) else DEFAULT_RETRY),
            Some(if v.monitoring.Some? then NormMonitoring(v.monitoring.value) else DEFAULT_MONITORING),
            seq(|v.producers|, i requires 0 <= i < |v.producers| => NormProducer(v.producers[i])),
            seq(|v.consumers|, i requires 0 <= i < |v.consumers| => NormConsumer(v.consumers[i])),
            v.auth)
  }

  // ---- What it does to every field

  /** An explicit positive duration is kept; an absent, zero or negative one becomes `default`. */
  predicate DurationSet(was: Option<int>, now: Option<int>, default: int) {
    if was.Some? && was.value > 0 then now == was else now == Some(default)
  }

  predicate NumberSet(was: int, now: int, default: int) { if was > 0 then now == was else now == default }

  predicate TextSet(was: string, now: string, default: string) { if was != "" then now == was else now == default }

  predicate ConnectionSet(was: Option<Connection>, now: Connection) {
    if was.None? then
      && now.connectionTimeout == now.operationTimeout == now.keepAliveInterval == Some(30_000_000_000)
      && now.maxConnectionsPerHost == 1 && now.enableConnectionPooling
    else
      && DurationSet(was.value.connectionTimeout, now.connectionTimeout, 30_000_000_000)
      && DurationSet(was.value.operationTimeout, now.operationTimeout, 30_000_000_000)
      && DurationSet(was.value.keepAliveInterval, now.keepAliveInterval, 30_000_000_000)
      && NumberSet(was.value.maxConnectionsPerHost, now.maxConnectionsPerHost, 1)
      && now.enableConnectionPooling == was.value.enableConnectionPooling
  }

  predicate RetrySet(was: Option<Retry>, now: Retry) {
    if was.None? then
      && now.enable && now.maxAttempts == 3
      && now.initialDelay == Some(100_000_000) && now.maxDelay == Some(30_000_000_000)
      && now.multiplier == 2.0 && now.jitterFactor == 0.1
    else
      && now.enable == was.value.enable && now.jitterFactor == was.value.jitterFactor
      && NumberSet(was.value.maxAttempts, now.maxAttempts, 3)
      && DurationSet(was.value.initialDelay, now.initialDelay, 100_000_000)
      && DurationSet(was.value.maxDelay, now.maxDelay, 30_000_000_000)
      && (if was.value.multiplier > 0.0 then now.multiplier == was.value.multiplier else now.multiplier == 2.0)
  }

  predicate MonitoringSet(was: Option<Monitoring>, now: Monitoring) {
    if was.None? then
      && now.enableMetrics && now.enableHealthCheck
      && now.metricsNamespace == "lynx_pulsar" && now.healthCheckInterval == Some(30_000_000_000)
    else
      && now.enableMetrics == was.value.enableMetrics && now.enableHealthCheck == was.value.enableHealthCheck
      && TextSet(was.value.metricsNamespace, now.metricsNamespace, "lynx_pulsar")
      && DurationSet(was.value.healthCheckInterval, now.healthCheckInterval, 30_000_000_000)
  }

  /** Absent options are options with every field absent. */
  predicate ProducerOptionsSet(was: Option<ProducerOptions>, now: ProducerOptions) {
    var o := if was.Some? then was.value else ProducerOptions(None, 0, None, 0, "", "", "");
    && DurationSet(o.sendTimeout, now.sendTimeout, 30_000_000_000)
    && NumberSet(o.maxPendingMessages, now.maxPendingMessages, 1000)
    && DurationSet(o.batchingMaxPublishDelay, now.batchingMaxPublishDelay, 10_000_000)
    && NumberSet(o.batchingMaxMessages, now.batchingMaxMessages, 1000)
    && TextSet(o.compressionType, now.compressionType, "none")
    && TextSet(o.hashingScheme, now.hashingScheme, "java_string_hash")
    && TextSet(o.messageRoutingMode, now.messageRoutingMode, "round_robin")
  }

  predicate ConsumerOptionsSet(was: Option<ConsumerOptions>, now: ConsumerOptions) {
    var o := if was.Some? then was.value else ConsumerOptions("", "", "", 0, None, "");
    && TextSet(o.subscriptionType, now.subscriptionType, "exclusive")
    && TextSet(o.subscriptionInitialPosition, now.subscriptionInitialPosition, "latest")
    && TextSet(o.subscriptionMode, now.subscriptionMode, "durable")
    && NumberSet(o.receiverQueueSize, now.receiverQueueSize, 1000)
    && DurationSet(o.negativeAckDelay, now.negativeAckDelay, 60_000_000_000)
    && TextSet(o.cryptoFailureAction, now.cryptoFailureAction, "fail")
  }

  predicate ProducerSet(was: Option<ProducerV>, now: Option<ProducerV>) {
    was.Some? && now.Some? && now.value.options.Some?
    && now.value.enabled == was.value.enabled && now.value.name == was.value.name && now.value.topic == was.value.topic
    && ProducerOptionsSet(was.value.options, now.value.options.value)
  }

  predicate ConsumerSet(was: Option<ConsumerV>, now: Option<ConsumerV>) {
    was.Some? && now.Some? && now.value.options.Some?
    && now.value.enabled == was.value.enabled && now.value.name == was.value.name
    && now.value.topics == was.value.topics && now.value.subscriptionName == was.value.subscriptionName
    && ConsumerOptionsSet(was.value.options, now.value.options.value)
  }

  /** Field by field: what is in range is kept, what is not becomes the documented value, what
      normalisation does not set is unchanged, and an absent section is there with the listed values. */
  predicate AllSet(was: ConfigV, now: ConfigV) {
    && TextSet(was.serviceUrl, now.serviceUrl, "pulsar://localhost:6650")
    && now.connection.Some? && ConnectionSet(was.connection, now.connection.value)
    && now.retry.Some? && RetrySet(was.retry, now.retry.value)
    && now.monitoring.Some? && MonitoringSet(was.monitoring, now.monitoring.value)
    && |now.producers| == |was.producers|
    && (forall i | 0 <= i < |was.producers| :: ProducerSet(was.producers[i], now.producers[i]))
    && |now.consumers| == |was.consumers|
    && (forall i | 0 <= i < |was.consumers| :: ConsumerSet(was.consumers[i], now.consumers[i]))
    && now.auth == was.auth
  }

  lemma NormSets(v: ConfigV)
    requires Acceptable(v)
    ensures AllSet(v, Norm(v))
  {
    forall i | 0 <= i < |v.producers| ensures ProducerSet(v.producers[i], Norm(v).producers[i]) {
      assert ProducerOk(v.producers[i]);
    }
    forall i | 0 <= i < |v.consumers| ensures ConsumerSet(v.consumers[i], Norm(v).consumers[i]) {
      assert ConsumerOk(v.consumers[i]);
    }
  }

  // ---- When it succeeds

  /** The delays that count are the explicit positive ones, or 100 ms and 30 s. */
  predicate RetryOk(r: Retry) {
    var initial := if r.initialDelay.Some? && r.initialDelay.value > 0 then r.initialDelay.value else 100_000_000;
    var maximal := if r.maxDelay.Some? && r.maxDelay.value > 0 then r.maxDelay.value else 30_000_000_000;
    initial <= maximal && r.jitterFactor >= 0.0
  }

  predicate ProducerOk(p: Option<ProducerV>) {
    p.Some? && (p.value.enabled ==> p.value.name != "" && p.value.topic != "")
  }

  predicate ConsumerOk(c: Option<ConsumerV>) {
    c.Some? && (c.value.enabled ==> c.value.name != "" && c.value.topics != [] && c.value.subscriptionName != "")
  }

  predicate AuthOk(a: Auth) {
    || a.kind == ""
    || (a.kind == "token" && a.token != "")
    || (a.kind == "oauth2" && a.oauth2.Some? && a.oauth2.value.issuerUrl != ""
        && a.oauth2.value.clientId != "" && a.oauth2.value.clientSecret != "")
    || (a.kind == "tls" && a.tlsAuth.Some? && a.tlsAuth.value.certFile != "" && a.tlsAuth.value.keyFile != "")
  }

  /** The configurations that normalisation accepts. */
  predicate Acceptable(v: ConfigV) {
    && (v.retry.Some? ==> RetryOk(v.retry.value))
    && (forall i | 0 <= i < |v.producers| :: ProducerOk(v.producers[i]))
    && (forall i | 0 <= i < |v.consumers| :: ConsumerOk(v.consumers[i]))
    && (v.auth.Some? ==> AuthOk(v.auth.value))
  }

  datatype Error =
    | ConfigRequired
    | BadRetry
    | BadProducer(index: nat)
    | BadConsumer(index: nat)
    | BadAuth
    | InvalidConfiguration

  /** `e` names the first part of the configuration that is at fault. */
  predicate FirstFault(v: ConfigV, e: Error) {
    var retryFine := v.retry.Some? ==> RetryOk(v.retry.value);
    match e
    case BadRetry => !retryFine
    case BadProducer(i) =>
      && retryFine && i < |v.producers| && !ProducerOk(v.producers[i])
      && (forall j | 0 <= j < i :: ProducerOk(v.producers[j]))
    case BadConsumer(i) =>
      && retryFine && (forall j | 0 <= j < |v.producers| :: ProducerOk(v.producers[j]))
      && i < |v.consumers| && !ConsumerOk(v.consumers[i])
      && (forall j | 0 <= j < i :: ConsumerOk(v.consumers[j]))
    case BadAuth =>
      && retryFine && (forall j | 0 <= j < |v.producers| :: ProducerOk(v.producers[j]))
      && (forall j | 0 <= j < |v.consumers| :: ConsumerOk(v.consumers[j]))
      && v.auth.Some? && !AuthOk(v.auth.value)
    case _ => false
  }

  // ---- pulsar.go:285-446

  method NormalizeConnection(cfg: PulsarConfig)
    modifies cfg`connection
    ensures cfg.connection == Some(if old(cfg.connection).Some? then NormConnection(old(cfg.connection).value)
                                   else DEFAULT_CONNECTION)
  {
    if cfg.connection.None? {
      cfg.connection := Some(DEFAULT_CONNECTION);
    } else {
      var c := cfg.connection.value;
      if !Positive(c.connectionTimeout) { c := c.(connectionTimeout := Some(30 * SECOND)); }
      if !Positive(c.operationTimeout) { c := c.(operationTimeout := Some(30 * SECOND)); }
      if !Positive(c.keepAliveInterval) { c := c.(keepAliveInterval := Some(30 * SECOND)); }
      if c.maxConnectionsPerHost <= 0 { c := c.(maxConnectionsPerHost := 1); }
      cfg.connection := Some(c);
    }
  }

  method NormalizeRetry(cfg: PulsarConfig) returns (ok: bool)
    modifies cfg`retry
    ensures ok <==> (old(cfg.retry).Some? ==> RetryOk(old(cfg.retry).value))
    ensures ok ==> cfg.retry.Some? && RetrySet(old(cfg.retry), cfg.retry.value)
    ensures ok ==> cfg.retry == Some(if old(cfg.retry).Some? then NormRetry(old(cfg.retry).value) else DEFAULT_RETRY)
  {
    if cfg.retry.None? {
      cfg.retry := Some(DEFAULT_RETRY);
      return true;
    }
    var r := cfg.retry.value;
    if r.maxAttempts <= 0 { r := r.(maxAttempts := 3); }
    if !Positive(r.initialDelay) { r := r.(initialDelay := Some(100 * MS)); }
    if !Positive(r.maxDelay) { r := r.(maxDelay := Some(30 * SECOND)); }
    cfg.retry := Some(r);
    if r.maxDelay.value < r.initialDelay.value { return false; }
    if r.multiplier <= 0.0 { r := r.(multiplier := 2.0); }
    cfg.retry := Some(r);
    return r.jitterFactor >= 0.0;
  }

  method NormalizeMonitoring(cfg: PulsarConfig)
    modifies cfg`monitoring
    ensures cfg.monitoring == Some(if old(cfg.monitoring).Some? then NormMonitoring(old(cfg.monitoring).value)
                                   else DEFAULT_MONITORING)
  {
    if cfg.monitoring.None? {
      cfg.monitoring := Some(DEFAULT_MONITORING);
    } else {
      var m := cfg.monitoring.value;
      if m.metricsNamespace == "" { m := m.(metricsNamespace := "lynx_pulsar"); }
      if !Positive(m.healthCheckInterval) { m := m.(healthCheckInterval := Some(30 * SECOND)); }
      cfg.monitoring := Some(m);
    }
  }

  method NormalizeProducer(p: Producer) returns (ok: bool)
    modifies p`options
    ensures ok <==> ProducerOk(Some(old(p.View())))
    ensures ok ==> p.options == Some(NormProducerOptions(old(p.options)))
    ensures !ok ==> p.options == old(p.options)
  {
    if p.enabled {
      if p.name == "" { return false; }
      if p.topic == "" { return false; }
    }
    if p.options.None? {
      p.options := Some(EMPTY_PRODUCER_OPTIONS);
    }
    var o := p.options.value;
    if !Positive(o.sendTimeout) { o := o.(sendTimeout := Some(30 * SECOND)); }
    if o.maxPendingMessages <= 0 { o := o.(maxPendingMessages := 1000); }
    if !Positive(o.batchingMaxPublishDelay) { o := o.(batchingMaxPublishDelay := Some(10 * MS)); }
    if o.batchingMaxMessages <= 0 { o := o.(batchingMaxMessages := 1000); }
    if o.compressionType == "" { o := o.(compressionType := "none"); }
    if o.hashingScheme == "" { o := o.(hashingScheme := "java_string_hash"); }
    if o.messageRoutingMode == "" { o := o.(messageRoutingMode := "round_robin"); }
    p.options := Some(o);
    return true;
  }

  method NormalizeConsumer(c: Consumer) returns (ok: bool)
    modifies c`options
    ensures ok <==> ConsumerOk(Some(old(c.View())))
    ensures ok ==> c.options == Some(NormConsumerOptions(old(c.options)))
    ensures !ok ==> c.options == old(c.options)
  {
    if c.enabled {
      if c.name == "" { return false; }
      if |c.topics| == 0 { return false; }
      if c.subscriptionName == "" { return false; }
    }
    if c.options.None? {
      c.options := Some(EMPTY_CONSUMER_OPTIONS);
    }
    var o := c.options.value;
    if o.subscriptionType == "" { o := o.(subscriptionType := "exclusive"); }
    if o.subscriptionInitialPosition == "" { o := o.(subscriptionInitialPosition := "latest"); }
    if o.subscriptionMode == "" { o := o.(subscriptionMode := "durable"); }
    if o.receiverQueueSize <= 0 { o := o.(receiverQueueSize := 1000); }
    if !Positive(o.negativeAckDelay) { o := o.(negativeAckDelay := Some(60 * SECOND)); }
    if o.cryptoFailureAction == "" { o := o.(cryptoFailureAction := "fail"); }
    c.options := Some(o);
    return true;
  }

  /** Walks the list in order, mutating the objects; an object that occurs again is processed again. */
  method NormalizeProducers(list: seq<Producer?>) returns (error: Option<Error>)
    modifies (set p: Producer | p in list)`options
    ensures error.None? ==>
              && (forall i | 0 <= i < |list| :: ProducerOk(old(ProducerViews(list))[i]))
              && forall i | 0 <= i < |list| :: ProducerViews(list)[i] == NormProducer(old(ProducerViews(list))[i])
    ensures error.Some? ==>
              && error.value.BadProducer? && error.value.index < |list|
              && !ProducerOk(old(ProducerViews(list))[error.value.index])
              && forall j | 0 <= j < error.value.index :: ProducerOk(old(ProducerViews(list))[j])
  {
    var i := 0;
    while i < |list|
      invariant 0 <= i <= |list|
      invariant forall j | 0 <= j < i :: list[j] != null && ProducerOk(Some(old(list[j].View())))
      invariant forall p: Producer | p in list[..i] :: p.options == Some(NormProducerOptions(old(p.options)))
      invariant forall p: Producer | p in list && p !in list[..i] :: p.options == old(p.options)
    {
      var p := list[i];
      if p == null {
        return Some(BadProducer(i));
      }
      OptionsIdempotent(old(p.options));
      var ok := NormalizeProducer(p);
      if !ok {
        return Some(BadProducer(i));
      }
      i := i + 1;
    }
    assert list[..i] == list;
    return None;
  }

  method NormalizeConsumers(list: seq<Consumer?>) returns (error: Option<Error>)
    modifies (set c: Consumer | c in list)`options
    ensures error.None? ==>
              && (forall i | 0 <= i < |list| :: ConsumerOk(old(ConsumerViews(list))[i]))
              && forall i | 0 <= i < |list| :: ConsumerViews(list)[i] == NormConsumer(old(ConsumerViews(list))[i])
    ensures error.Some? ==>
              && error.value.BadConsumer? && error.value.index < |list|
              && !ConsumerOk(old(ConsumerViews(list))[error.value.index])
              && forall j | 0 <= j < error.value.index :: ConsumerOk(old(ConsumerViews(list))[j])
  {
    var i := 0;
    while i < |list|
      invariant 0 <= i <= |list|
      invariant forall j | 0 <= j < i :: list[j] != null && ConsumerOk(Some(old(list[j].View())))
      invariant forall c: Consumer | c in list[..i] :: c.options == Some(NormConsumerOptions(old(c.options)))
      invariant forall c: Consumer | c in list && c !in list[..i] :: c.options == old(c.options)
    {
      var c := list[i];
      if c == null {
        return Some(BadConsumer(i));
      }
      ConsumerOptionsIdempotent(old(c.options));
      var ok := NormalizeConsumer(c);
      if !ok {
        return Some(BadConsumer(i));
      }
      i := i + 1;
    }
    assert list[..i] == list;
    return None;
  }

  method ValidateAuth(auth: Option<Auth>) returns (ok: bool)
    ensures ok <==> (auth.Some? ==> AuthOk(auth.value))
  {
    if auth.None? {
      return true;
    }
    var a := auth.value;
    if a.kind == "" || a.kind == "token" {
      return !(a.kind == "token" && a.token == "");
    } else if a.kind == "oauth2" {
      if a.oauth2.None? { return false; }
      var o := a.oauth2.value;
      return !(o.issuerUrl == "" || o.clientId == "" || o.clientSecret == "");
    } else if a.kind == "tls" {
      if a.tlsAuth.None? { return false; }
      return !(a.tlsAuth.value.certFile == "" || a.tlsAuth.value.keyFile == "");
    }
    return false;
  }

  method NormalizeSections(cfg: PulsarConfig) returns (ok: bool)
    modifies cfg`serviceUrl, cfg`connection, cfg`retry, cfg`monitoring
    ensures ok <==> (old(cfg.retry).Some? ==> RetryOk(old(cfg.retry).value))
    ensures ok ==>
              && cfg.serviceUrl == Norm(old(cfg.View())).serviceUrl
              && cfg.connection == Norm(old(cfg.View())).connection
              && cfg.retry == Norm(old(cfg.View())).retry
              && cfg.monitoring == Norm(old(cfg.View())).monitoring
  {
    if cfg.serviceUrl == "" {
      cfg.serviceUrl := "pulsar://localhost:6650";
    }
    NormalizeConnection(cfg);
    ok := NormalizeRetry(cfg);
    if ok {
      NormalizeMonitoring(cfg);
    }
  }

  method NormalizeGiven(cfg: PulsarConfig) returns (error: Option<Error>)
    modifies cfg, (set p: Producer | p in cfg.producers), (set c: Consumer | c in cfg.consumers)
    ensures error.None? <==> Acceptable(old(cfg.View()))
    ensures error.None? ==> cfg.View() == Norm(old(cfg.View()))
    ensures error.Some? ==> FirstFault(old(cfg.View()), error.value)
    ensures cfg.producers == old(cfg.producers) && cfg.consumers == old(cfg.consumers)
  {
    ghost var v := cfg.View();
    var ok := NormalizeSections(cfg);
    if !ok {
      return Some(BadRetry);
    }
    assert ProducerViews(cfg.producers) == v.producers;
    error := NormalizeProducers(cfg.producers);
    if error.Some? {
      return;
    }
    assert ProducerViews(cfg.producers) == Norm(v).producers;
    assert ConsumerViews(cfg.consumers) == v.consumers;
    error := NormalizeConsumers(cfg.consumers);
    if error.Some? {
      return;
    }
    assert ConsumerViews(cfg.consumers) == Norm(v).consumers;
    ok := ValidateAuth(cfg.auth);
    if !ok {
      return Some(BadAuth);
    }
    return None;
  }

  /** Succeeds exactly on the acceptable configurations and then leaves their normal form; otherwise
      names the first part at fault. */
  method Normalize(cfg: PulsarConfig?) returns (error: Option<Error>)
    modifies if cfg == null then {} else {cfg} + (set p: Producer | p in cfg.producers) + (set c: Consumer | c in cfg.consumers)
    ensures cfg == null ==> error == Some(ConfigRequired)
    ensures cfg != null ==> (error.None? <==> Acceptable(old(cfg.View())))
    ensures cfg != null && error.None? ==> AllSet(old(cfg.View()), cfg.View())
    ensures cfg != null && error.None? ==> cfg.View() == Norm(old(cfg.View()))
    ensures cfg != null && error.Some? ==> FirstFault(old(cfg.View()), error.value)
    ensures cfg != null ==> cfg.producers == old(cfg.producers) && cfg.consumers == old(cfg.consumers)
  {
    if cfg == null {
      return Some(ConfigRequired);
    }
    if Acceptable(cfg.View()) {
      NormSets(cfg.View());
    }
    error := NormalizeGiven(cfg);
  }

  lemma OptionsIdempotent(o: Option<ProducerOptions>)
    ensures NormProducerOptions(Some(NormProducerOptions(o))) == NormProducerOptions(o)
  {}

  lemma ConsumerOptionsIdempotent(o: Option<ConsumerOptions>)
    ensures NormConsumerOptions(Some(NormConsumerOptions(o))) == NormConsumerOptions(o)
  {}
}
