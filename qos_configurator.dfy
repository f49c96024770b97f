/**
 * DdsQosConfigurator: writes the set fields of a QoS config onto transport
 * attributes, in place. Unset (`None`) fields leave the attribute as it was.
 */
module QosConfigurator {
  import opened Wrappers
  import opened QosConfig
  import opened Transport

  datatype ConfiguratorError = NullConfig

  /** A configurator holds a config that is never null. */
  datatype Configurator = Configurator(config: Config) {
    /** getReliability(): the config's reliability, unchanged (possibly unset). */
    function GetReliability(): Option<ReliabilityKind> {
      config.reliability
    }
  }

  /** The constructor: a null config is rejected with IllegalStateException. */
  function NewConfigurator(config: Option<Config>): (r: Result<Configurator, ConfiguratorError>)
    ensures r.Failure? <==> config.None?
    ensures r.Failure? ==> r.error == NullConfig
    ensures r.Success? ==> r.value.config == config.value && r.value.GetReliability() == config.value.reliability
  {
    match config
    case None => Failure(NullConfig)
    case Some(c) => Success(Configurator(c))
  }

  /** `value` when the config sets it, otherwise what was there. */
  function Override<T>(setting: Option<T>, current: T): T {
    match setting
    case None => current
    case Some(v) => v
  }

  /** configureCommon as a function of the QoS before the call. */
  function ApplyCommon(c: Config, q: CommonQos): (r: CommonQos)
    ensures c.reliability.Some? ==> r.reliability == c.reliability.value
    ensures c.reliability.None? ==> r.reliability == q.reliability
    ensures c.durability.Some? ==> r.durability == c.durability.value
    ensures c.durability.None? ==> r.durability == q.durability
    ensures c.ownership.Some? ==> r.ownership == c.ownership.value
    ensures c.ownership.None? ==> r.ownership == q.ownership
  {
    CommonQos(Override(c.reliability, q.reliability),
              Override(c.durability, q.durability),
              Override(c.ownership, q.ownership))
  }

  /** The publish mode configurePublisher always writes. */
  function PublishModeOf(c: Config): (m: PublishMode)
    ensures m == AsynchronousPublish <==> c.asynchronous
  {
    if c.asynchronous then AsynchronousPublish else SynchronousPublish
  }

  /** The liveliness policy configureSubscriber leaves on a reader. */
  function ApplyLiveliness(c: Config, fastRtps: bool, current: LivelinessPolicy): (r: LivelinessPolicy)
    ensures r != current ==> fastRtps && c.liveliness.Some?
    ensures fastRtps && c.liveliness.Some? ==> r == AttachedLiveliness(c.liveliness.value)
  {
    if fastRtps && c.liveliness.Some? then AttachedLiveliness(c.liveliness.value) else current
  }

  /** Applying a config twice is the same as applying it once. */
  lemma ApplyCommonIdempotent(c: Config, q: CommonQos)
    ensures ApplyCommon(c, ApplyCommon(c, q)) == ApplyCommon(c, q)
  {
  }

  /**
   * A config that sets only reliability leaves durability and ownership
   * exactly as the transport defaulted them.
   */
  lemma OnlyReliabilitySet(c: Config, q: CommonQos)
    requires c.reliability.Some? && c.durability.None? && c.ownership.None?
    ensures ApplyCommon(c, q) == q.(reliability := c.reliability.value)
  {
  }

  /**
   * After configuring, every policy the config sets is what the attributes
   * hold, which is what the configuration tests compare.
   */
  lemma AppliedAgreesWithConfig(c: Config, q: CommonQos)
    ensures var r := ApplyCommon(c, q);
      (c.reliability.Some? ==> Some(r.reliability) == c.reliability) &&
      (c.durability.Some? ==> Some(r.durability) == c.durability) &&
      (c.ownership.Some? ==> Some(r.ownership) == c.ownership)
  {
  }

  /** configurePublisher: common fields, history only when set, publish mode always. */
  method ConfigurePublisher(cfg: Configurator, attributes: PublisherAttributes)
    modifies attributes
    ensures attributes.qos == ApplyCommon(cfg.config, old(attributes.qos))
    ensures attributes.topicHistory == Override(cfg.config.history, old(attributes.topicHistory))
    ensures attributes.publishMode == PublishModeOf(cfg.config)
  {
    ConfigureCommon(cfg, attributes);
    if cfg.config.history.Some? {
      attributes.topicHistory := cfg.config.history.value;
    }
    attributes.publishMode := if cfg.config.asynchronous then AsynchronousPublish else SynchronousPublish;
  }

  /** configureSubscriber: common fields, then liveliness for FastRTPS attributes only. */
  method ConfigureSubscriber(cfg: Configurator, attributes: SubscriberAttributes)
    modifies attributes
    ensures attributes.qos == ApplyCommon(cfg.config, old(attributes.qos))
    ensures attributes.liveliness == ApplyLiveliness(cfg.config, attributes.fastRtps, old(attributes.liveliness))
  {
    attributes.qos := ApplyCommon(cfg.config, attributes.qos);
    if attributes.fastRtps {
      ConfigureFastRtpsSubscriber(cfg, attributes);
    }
  }

  /** configureFastRTPSSubscriber: attach a new liveliness policy when the config names a kind. */
  method ConfigureFastRtpsSubscriber(cfg: Configurator, attributes: SubscriberAttributes)
    modifies attributes
    ensures attributes.qos == old(attributes.qos)
    ensures cfg.config.liveliness.Some? ==> attributes.liveliness == AttachedLiveliness(cfg.config.liveliness.value)
    ensures cfg.config.liveliness.None? ==> attributes.liveliness == old(attributes.liveliness)
  {
    if cfg.config.liveliness.Some? {
      attributes.liveliness := AttachedLiveliness(cfg.config.liveliness.value);
    }
  }

  /** configureCommon on a publisher's QoS, one guarded write per field. */
  method ConfigureCommon(cfg: Configurator, attributes: PublisherAttributes)
    modifies attributes
    ensures attributes.qos == ApplyCommon(cfg.config, old(attributes.qos))
    ensures attributes.topicHistory == old(attributes.topicHistory)
    ensures attributes.publishMode == old(attributes.publishMode)
  {
    if cfg.config.reliability.Some? {
      attributes.qos := attributes.qos.(reliability := cfg.config.reliability.value);
    }
    if cfg.config.durability.Some? {
      attributes.qos := attributes.qos.(durability := cfg.config.durability.value);
    }
    if cfg.config.ownership.Some? {
      attributes.qos := attributes.qos.(ownership := cfg.config.ownership.value);
    }
  }
}
