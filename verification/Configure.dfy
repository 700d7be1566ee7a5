/** What normalisation guarantees about values, Configure as a transaction, and the choice of the
    authentication method. */
module Configure {
  import opened Registry
  import opened Config
  import Backoff

  // ---- Normal forms

  predicate InRangeConnection(c: Connection) {
    && Positive(c.connectionTimeout) && Positive(c.operationTimeout) && Positive(c.keepAliveInterval)
    && c.maxConnectionsPerHost > 0
  }

  predicate InRangeRetry(r: Retry) {
    && r.maxAttempts > 0 && Positive(r.initialDelay) && Positive(r.maxDelay) && r.multiplier > 0.0
  }

  predicate InRangeMonitoring(m: Monitoring) { m.metricsNamespace != "" && Positive(m.healthCheckInterval) }

  predicate InRangeProducer(p: Option<ProducerV>) {
    p.Some? ==>
      && p.value.options.Some?
      && var o := p.value.options.value;
         && Positive(o.sendTimeout) && o.maxPendingMessages > 0 && Positive(o.batchingMaxPublishDelay)
         && o.batchingMaxMessages > 0 && o.compressionType != "" && o.hashingScheme != "" && o.messageRoutingMode != ""
  }

  predicate InRangeConsumer(c: Option<ConsumerV>) {
    c.Some? ==>
      && c.value.options.Some?
      && var o := c.value.options.value;
         && o.subscriptionType != "" && o.subscriptionInitialPosition != "" && o.subscriptionMode != ""
         && o.receiverQueueSize > 0 && Positive(o.negativeAckDelay) && o.cryptoFailureAction != ""
  }

  /** Every section is there and every defaulted field holds a value of its range. */
  predicate InRange(v: ConfigV) {
    && v.serviceUrl != ""
    && v.connection.Some? && InRangeConnection(v.connection.value)
    && v.retry.Some? && InRangeRetry(v.retry.value)
    && v.monitoring.Some? && InRangeMonitoring(v.monitoring.value)
    && (forall i | 0 <= i < |v.producers| :: InRangeProducer(v.producers[i]))
    && (forall i | 0 <= i < |v.consumers| :: InRangeConsumer(v.consumers[i]))
  }

  lemma ProducerFixed(p: Option<ProducerV>)
    ensures InRangeProducer(NormProducer(p))
    ensures NormProducer(p) == p <==> InRangeProducer(p)
  {}

  lemma ConsumerFixed(c: Option<ConsumerV>)
    ensures InRangeConsumer(NormConsumer(c))
    ensures NormConsumer(c) == c <==> InRangeConsumer(c)
  {}

  lemma SectionsFixed(c: Connection, r: Retry, m: Monitoring)
    ensures InRangeConnection(NormConnection(c)) && (NormConnection(c) == c <==> InRangeConnection(c))
    ensures InRangeRetry(NormRetry(r)) && (NormRetry(r) == r <==> InRangeRetry(r))
    ensures InRangeMonitoring(NormMonitoring(m)) && (NormMonitoring(m) == m <==> InRangeMonitoring(m))
  {}

  lemma NormInRange(v: ConfigV)
    ensures InRange(Norm(v))
  {
    var n := Norm(v);
    if v.connection.Some? && v.retry.Some? && v.monitoring.Some? {
      SectionsFixed(v.connection.value, v.retry.value, v.monitoring.value);
    }
    forall i | 0 <= i < |n.producers| ensures InRangeProducer(n.producers[i]) { ProducerFixed(v.producers[i]); }
    forall i | 0 <= i < |n.consumers| ensures InRangeConsumer(n.consumers[i]) { ConsumerFixed(v.consumers[i]); }
  }

  /** Normalisation changes nothing if and only if everything is present and in range. */
  lemma NormFixedIff(v: ConfigV)
    ensures Norm(v) == v <==> InRange(v)
  {
    NormInRange(v);
    if InRange(v) {
      SectionsFixed(v.connection.value, v.retry.value, v.monitoring.value);
      forall i | 0 <= i < |v.producers| ensures NormProducer(v.producers[i]) == v.producers[i] { ProducerFixed(v.producers[i]); }
      forall i | 0 <= i < |v.consumers| ensures NormConsumer(v.consumers[i]) == v.consumers[i] { ConsumerFixed(v.consumers[i]); }
      assert Norm(v).producers == v.producers && Norm(v).consumers == v.consumers;
    }
  }

  /** A second normalisation accepts what the first one accepted and changes nothing. */
  lemma NormIdempotent(v: ConfigV)
    ensures Norm(Norm(v)) == Norm(v)
    ensures Acceptable(Norm(v)) <==> Acceptable(v)
  {
    NormInRange(v);
    NormFixedIff(Norm(v));
    var n := Norm(v);
    assert forall i | 0 <= i < |v.producers| :: ProducerOk(n.producers[i]) <==> ProducerOk(v.producers[i]);
    assert forall i | 0 <= i < |v.consumers| :: ConsumerOk(n.consumers[i]) <==> ConsumerOk(v.consumers[i]);
    assert |n.producers| == |v.producers| && |n.consumers| == |v.consumers|;
    if v.retry.Some? {
      SectionsFixed(DEFAULT_CONNECTION, v.retry.value, DEFAULT_MONITORING);
      SectionsFixed(DEFAULT_CONNECTION, NormRetry(v.retry.value), DEFAULT_MONITORING);
    }
  }

  /** The retry section of an accepted configuration meets the ranges the backoff theorems need. */
  lemma AcceptedRetryNormalised(v: ConfigV)
    requires Acceptable(v)
    ensures var r := Norm(v).retry.value;
            Backoff.Retry(r.enable, r.maxAttempts, r.initialDelay.value, r.maxDelay.value, r.multiplier).Normalised()
  {}

  // ---- pulsar.go:150-159, 237-250

  method CloneProducers(list: seq<Producer?>) returns (copy: seq<Producer?>)
    ensures |copy| == |list| && fresh(set p: Producer | p in copy)
    ensures ProducerViews(copy) == ProducerViews(list)
  {
    copy := [];
    var i := 0;
    while i < |list|
      invariant 0 <= i <= |list| && |copy| == i
      invariant fresh(set p: Producer | p in copy)
      invariant forall j | 0 <= j < i :: (copy[j] == null <==> list[j] == null)
      invariant forall j | 0 <= j < i && copy[j] != null :: copy[j].View() == list[j].View()
    {
      var p: Producer? := null;
      if list[i] != null {
        p := new Producer(list[i].View());
      }
      copy := copy + [p];
      i := i + 1;
    }
  }

  method CloneConsumers(list: seq<Consumer?>) returns (copy: seq<Consumer?>)
    ensures |copy| == |list| && fresh(set c: Consumer | c in copy)
    ensures ConsumerViews(copy) == ConsumerViews(list)
  {
    copy := [];
    var i := 0;
    while i < |list|
      invariant 0 <= i <= |list| && |copy| == i
      invariant fresh(set c: Consumer | c in copy)
      invariant forall j | 0 <= j < i :: (copy[j] == null <==> list[j] == null)
      invariant forall j | 0 <= j < i && copy[j] != null :: copy[j].View() == list[j].View()
    {
      var c: Consumer? := null;
      if list[i] != null {
        c := new Consumer(list[i].View());
      }
      copy := copy + [c];
      i := i + 1;
    }
  }

  method Clone(cfg: PulsarConfig) returns (copy: PulsarConfig)
    ensures fresh(copy) && fresh(set p: Producer | p in copy.producers) && fresh(set c: Consumer | c in copy.consumers)
    ensures copy.View() == cfg.View()
  {
    var ps := CloneProducers(cfg.producers);
    var cs := CloneConsumers(cfg.consumers);
    copy := new PulsarConfig(cfg.View(), ps, cs);
  }

  method NormalizedCopy(cfg: PulsarConfig) returns (copy: PulsarConfig, error: Option<Error>)
    ensures fresh(copy)
    ensures error.None? <==> Acceptable(cfg.View())
    ensures error.None? ==> copy.View() == Norm(cfg.View()) && AllSet(cfg.View(), copy.View())
    ensures error.Some? ==> FirstFault(cfg.View(), error.value)
  {
    copy := Clone(cfg);
    error := Normalize(copy);
  }

  /** What a caller may pass to Configure. */
  datatype Argument = SomethingElse | Pulsar(cfg: PulsarConfig?)

  class Plugin {
    var config: PulsarConfig

    constructor (config: PulsarConfig)
      ensures this.config == config
    {
      this.config := config;
    }

    /** All or nothing: on an error the stored object is kept; on success it is replaced by a fresh
        object with the normal form. Only the field is modified, so the caller's object, the old
        stored object and everything in them keep their values in both cases. */
    method Configure(arg: Argument) returns (error: Option<Error>)
      modifies this`config
      ensures error.None? <==> arg.Pulsar? && arg.cfg != null && Acceptable(arg.cfg.View())
      ensures error.Some? ==> config == old(config) && config.View() == old(config.View())
      ensures error.None? ==> fresh(config) && AllSet(arg.cfg.View(), config.View())
      ensures error.None? ==> config.View() == Norm(arg.cfg.View())
      ensures arg.Pulsar? && arg.cfg != null ==> arg.cfg.View() == old(arg.cfg.View())
      ensures arg.Pulsar? && arg.cfg != null && error.Some? ==> FirstFault(arg.cfg.View(), error.value)
    {
      if arg.SomethingElse? || arg.cfg == null {
        return Some(InvalidConfiguration);
      }
      var normalized;
      normalized, error := NormalizedCopy(arg.cfg);
      if error.Some? {
        return;
      }
      config := normalized;
    }
  }

  // ---- pulsar.go:658-686

  datatype Authentication =
    | TokenAuthentication(token: string)
    | OAuth2Authentication(issuer: string, clientId: string, clientSecret: string)
    | TlsAuthentication(certFile: string, keyFile: string)

  /** The authentication part of buildClientOptions. */
  function AuthenticationFor(auth: Option<Auth>): Option<Authentication> {
    if auth.None? then None
    else
      var a := auth.value;
      if a.kind == "token" then
        if a.token != "" then Some(TokenAuthentication(a.token)) else None
      else if a.kind == "oauth2" then
        if a.oauth2.None? then None
        else
          var o := a.oauth2.value;
          Some(OAuth2Authentication(o.issuerUrl, o.clientId, o.clientSecret))
      else if a.kind == "tls" then
        if a.tlsAuth.None? then None
        else Some(TlsAuthentication(a.tlsAuth.value.certFile, a.tlsAuth.value.keyFile))
      else None
  }

  predicate Complete(a: Authentication) {
    match a
    case TokenAuthentication(t) => t != ""
    case OAuth2Authentication(i, c, s) => i != "" && c != "" && s != ""
    case TlsAuthentication(c, k) => c != "" && k != ""
  }

  /** For every accepted configuration the client gets an authentication if and only if one was asked for,
      and then with all its credentials. In general validation of the auth section holds exactly when
      nothing was asked for or a complete authentication comes out. */
  lemma ValidationCoversUse(v: ConfigV)
    ensures Acceptable(v) ==>
              (AuthenticationFor(Norm(v).auth).Some? <==> v.auth.Some? && v.auth.value.kind != "")
    ensures v.auth.Some? ==>
              (AuthOk(v.auth.value) <==>
                 v.auth.value.kind == "" ||
                 (AuthenticationFor(v.auth).Some? && Complete(AuthenticationFor(v.auth).value)))
  {}

  /** The credentials are the configured ones, each in its place. */
  lemma CredentialsCopied(a: Auth)
    ensures a.kind == "token" && a.token != "" ==> AuthenticationFor(Some(a)) == Some(TokenAuthentication(a.token))
    ensures a.kind == "oauth2" && a.oauth2.Some? ==>
              && AuthenticationFor(Some(a)).Some? && AuthenticationFor(Some(a)).value.OAuth2Authentication?
              && AuthenticationFor(Some(a)).value.issuer == a.oauth2.value.issuerUrl
              && AuthenticationFor(Some(a)).value.clientId == a.oauth2.value.clientId
              && AuthenticationFor(Some(a)).value.clientSecret == a.oauth2.value.clientSecret
    ensures a.kind == "tls" && a.tlsAuth.Some? ==>
              && AuthenticationFor(Some(a)).Some? && AuthenticationFor(Some(a)).value.TlsAuthentication?
              && AuthenticationFor(Some(a)).value.certFile == a.tlsAuth.value.certFile
              && AuthenticationFor(Some(a)).value.keyFile == a.tlsAuth.value.keyFile
  {}
}
