/**
 * The immutable quality-of-service record DdsQosConfig. Every policy field
 * is optional: `None` is the Java `null` that means "leave the transport's
 * default in place".
 */
module QosConfig {
  import opened Wrappers

  datatype ReliabilityKind = BestEffort | Reliable
  datatype DurabilityKind = VolatileDurability | TransientLocalDurability | TransientDurability | PersistentDurability
  datatype OwnershipKind = SharedOwnership | ExclusiveOwnership
  datatype HistoryKind = KeepLastHistory | KeepAllHistory
  datatype LivelinessKind = AutomaticLiveliness | ManualByParticipantLiveliness | ManualByTopicLiveliness
  datatype PublishMode = SynchronousPublish | AsynchronousPublish

  /** All fields are final in the source, so a value type models the record. */
  datatype Config = Config(
    name: string,
    reliability: Option<ReliabilityKind>,
    durability: Option<DurabilityKind>,
    ownership: Option<OwnershipKind>,
    history: Option<HistoryKind>,
    liveliness: Option<LivelinessKind>,
    asynchronous: bool)

  /** The seven-argument constructor: each getter returns its argument. */
  function NewPublisherConfig(
    name: string, reliability: Option<ReliabilityKind>, durability: Option<DurabilityKind>,
    ownership: Option<OwnershipKind>, history: Option<HistoryKind>,
    liveliness: Option<LivelinessKind>, asynchronous: bool): (c: Config)
    ensures c.name == name && c.reliability == reliability && c.durability == durability
    ensures c.ownership == ownership && c.history == history && c.liveliness == liveliness
    ensures c.asynchronous == asynchronous
  {
    Config(name, reliability, durability, ownership, history, liveliness, asynchronous)
  }

  /** The six-argument constructor delegates with `asynchronous = false`. */
  function NewSubscriberConfig(
    name: string, reliability: Option<ReliabilityKind>, durability: Option<DurabilityKind>,
    ownership: Option<OwnershipKind>, history: Option<HistoryKind>,
    liveliness: Option<LivelinessKind>): (c: Config)
    ensures c.name == name && c.reliability == reliability && c.durability == durability
    ensures c.ownership == ownership && c.history == history && c.liveliness == liveliness
    ensures !c.asynchronous
  {
    NewPublisherConfig(name, reliability, durability, ownership, history, liveliness, false)
  }
}
