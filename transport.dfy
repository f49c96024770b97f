/**
 * The IHMC pub-sub transport as the gateway sees it. This is not the
 * gateway's code: it is the collaborator the gateway calls, reduced to
 * what the gateway observes. Allocations are recorded in ghost sets so that
 * "created at most once" can be stated; a subscriber holds a queue of
 * samples that have arrived and not yet been taken.
 */
module Transport {
  import opened Wrappers
  import opened QosConfig

  /** The decoded field values of one payload. */
  type Sample = seq<int>

  /** What a generated payload type's default constructor leaves in a fresh instance. */
  const DefaultSample: Sample := []

  /** The QoS fields shared by publisher and subscriber attributes. */
  datatype CommonQos = CommonQos(reliability: ReliabilityKind, durability: DurabilityKind, ownership: OwnershipKind)

  /** A reader's liveliness policy: the transport's own, or one the gateway attached. */
  datatype LivelinessPolicy = TransportLiveliness | AttachedLiveliness(kind: LivelinessKind)

  /** Publisher attributes, mutated in place by the configurator. */
  class PublisherAttributes {
    var qos: CommonQos
    var publishMode: PublishMode
    var topicHistory: HistoryKind

    constructor (qos: CommonQos, publishMode: PublishMode, topicHistory: HistoryKind)
      ensures this.qos == qos && this.publishMode == publishMode && this.topicHistory == topicHistory
    {
      this.qos := qos;
      this.publishMode := publishMode;
      this.topicHistory := topicHistory;
    }
  }

  /** Subscriber attributes; `fastRtps` is the FastRTPSSubscriberAttributes subclass test. */
  class SubscriberAttributes {
    var qos: CommonQos
    var liveliness: LivelinessPolicy
    const fastRtps: bool

    constructor (qos: CommonQos, liveliness: LivelinessPolicy, fastRtps: bool)
      ensures this.qos == qos && this.liveliness == liveliness && this.fastRtps == fastRtps
    {
      this.qos := qos;
      this.liveliness := liveliness;
      this.fastRtps := fastRtps;
    }
  }

  class Participant {
    const domainId: int
    const name: string

    constructor (domainId: int, name: string)
      ensures this.domainId == domainId && this.name == name
    {
      this.domainId := domainId;
      this.name := name;
    }
  }

  /** A generated payload object; its contents are overwritten by a take into it. */
  class Message {
    var contents: Sample

    constructor (contents: Sample)
      ensures this.contents == contents
    {
      this.contents := contents;
    }
  }

  /** Per-sample metadata filled in by a take. */
  class SampleInfo {
    var sequenceNumber: nat

    constructor ()
      ensures sequenceNumber == 0
    {
      sequenceNumber := 0;
    }
  }

  class Publisher {
    const participant: Participant
    const qos: CommonQos
    const publishMode: PublishMode
    const topicHistory: HistoryKind
    /** Everything written, in order. */
    var written: seq<Sample>

    constructor (participant: Participant, qos: CommonQos, publishMode: PublishMode, topicHistory: HistoryKind)
      ensures this.participant == participant && this.qos == qos
      ensures this.publishMode == publishMode && this.topicHistory == topicHistory
      ensures written == []
    {
      this.participant := participant;
      this.qos := qos;
      this.publishMode := publishMode;
      this.topicHistory := topicHistory;
      written := [];
    }

    method Write(sample: Sample)
      modifies this
      ensures written == old(written) + [sample]
    {
      written := written + [sample];
    }
  }

  class Subscriber {
    const participant: Participant
    const qos: CommonQos
    const liveliness: LivelinessPolicy
    /** The listener bound at creation; it is never rebound. */
    const listener: object
    /** Samples received and not yet taken, oldest first. */
    var queue: seq<Sample>
    /** How many samples have been taken. */
    var taken: nat

    constructor (participant: Participant, qos: CommonQos, liveliness: LivelinessPolicy, listener: object)
      ensures this.participant == participant && this.qos == qos
      ensures this.liveliness == liveliness && this.listener == listener
      ensures queue == [] && taken == 0
    {
      this.participant := participant;
      this.qos := qos;
      this.liveliness := liveliness;
      this.listener := listener;
      queue := [];
      taken := 0;
    }

    /** A sample arriving from the network. */
    method Receive(sample: Sample)
      modifies this
      ensures queue == old(queue) + [sample] && taken == old(taken)
    {
      queue := queue + [sample];
    }

    /** takeNextData(): a newly allocated payload holding the oldest sample, or null. */
    method TakeNextData() returns (m: Message?)
      modifies this
      ensures old(queue) == [] ==> m == null && queue == [] && taken == old(taken)
      ensures old(queue) != [] ==> m != null && fresh(m) && m.contents == old(queue)[0]
      ensures old(queue) != [] ==> queue == old(queue)[1..] && taken == old(taken) + 1
    {
      if queue == [] {
        m := null;
      } else {
        m := new Message(queue[0]);
        queue := queue[1..];
        taken := taken + 1;
      }
    }

    /** takeNextData(data, info): decodes the oldest sample into `data`; false when there is none. */
    method TakeNextDataInto(data: Message, info: SampleInfo) returns (ok: bool)
      modifies this, data, info
      ensures ok <==> old(queue) != []
      ensures !ok ==> queue == old(queue) && taken == old(taken)
      ensures !ok ==> data.contents == old(data.contents) && info.sequenceNumber == old(info.sequenceNumber)
      ensures ok ==> data.contents == old(queue)[0] && queue == old(queue)[1..]
      ensures ok ==> taken == old(taken) + 1 && info.sequenceNumber == taken
    {
      if queue == [] {
        ok := false;
      } else {
        data.contents := queue[0];
        queue := queue[1..];
        taken := taken + 1;
        info.sequenceNumber := taken;
        ok := true;
      }
    }
  }

  /**
   * The FastRTPS domain. The defaults are what the transport puts into fresh
   * attributes; the ghost sets record every allocation and removal.
   */
  class Domain {
    const writerDefaults: CommonQos
    const readerDefaults: CommonQos
    const publishModeDefault: PublishMode
    const historyDefault: HistoryKind
    const fastRtps: bool
    ghost var participants: set<Participant>
    ghost var publishers: set<Publisher>
    ghost var subscribers: set<Subscriber>
    ghost var removed: set<Participant>

    constructor (writerDefaults: CommonQos, readerDefaults: CommonQos, publishModeDefault: PublishMode,
                 historyDefault: HistoryKind, fastRtps: bool)
      ensures this.writerDefaults == writerDefaults && this.readerDefaults == readerDefaults
      ensures this.publishModeDefault == publishModeDefault && this.historyDefault == historyDefault
      ensures this.fastRtps == fastRtps
      ensures participants == {} && publishers == {} && subscribers == {} && removed == {}
    {
      this.writerDefaults := writerDefaults;
      this.readerDefaults := readerDefaults;
      this.publishModeDefault := publishModeDefault;
      this.historyDefault := historyDefault;
      this.fastRtps := fastRtps;
      participants, publishers, subscribers, removed := {}, {}, {}, {};
    }

    method CreateParticipant(domainId: int, name: string) returns (p: Participant)
      modifies this
      ensures fresh(p) && p.domainId == domainId && p.name == name
      ensures participants == old(participants) + {p}
      ensures publishers == old(publishers) && subscribers == old(subscribers) && removed == old(removed)
    {
      p := new Participant(domainId, name);
      participants := participants + {p};
    }

    /** Fresh publisher attributes: transport defaults, reliability seeded when one is given. */
    method CreatePublisherAttributes(reliability: Option<ReliabilityKind>) returns (a: PublisherAttributes)
      ensures fresh(a)
      ensures a.qos == SeedReliability(writerDefaults, reliability)
      ensures a.publishMode == publishModeDefault && a.topicHistory == historyDefault
    {
      a := new PublisherAttributes(SeedReliability(writerDefaults, reliability), publishModeDefault, historyDefault);
    }

    /** Fresh subscriber attributes: transport defaults, reliability seeded when one is given. */
    method CreateSubscriberAttributes(reliability: Option<ReliabilityKind>) returns (a: SubscriberAttributes)
      ensures fresh(a)
      ensures a.qos == SeedReliability(readerDefaults, reliability)
      ensures a.liveliness == TransportLiveliness && a.fastRtps == fastRtps
    {
      a := new SubscriberAttributes(SeedReliability(readerDefaults, reliability), TransportLiveliness, fastRtps);
    }

    method CreatePublisher(p: Participant, a: PublisherAttributes) returns (pub: Publisher)
      modifies this
      ensures fresh(pub) && pub.participant == p && pub.written == []
      ensures pub.qos == a.qos && pub.publishMode == a.publishMode && pub.topicHistory == a.topicHistory
      ensures publishers == old(publishers) + {pub}
      ensures participants == old(participants) && subscribers == old(subscribers) && removed == old(removed)
    {
      pub := new Publisher(p, a.qos, a.publishMode, a.topicHistory);
      publishers := publishers + {pub};
    }

    method CreateSubscriber(p: Participant, a: SubscriberAttributes, listener: object) returns (sub: Subscriber)
      modifies this
      ensures fresh(sub) && sub.participant == p && sub.listener == listener
      ensures sub.qos == a.qos && sub.liveliness == a.liveliness && sub.queue == [] && sub.taken == 0
      ensures subscribers == old(subscribers) + {sub}
      ensures participants == old(participants) && publishers == old(publishers) && removed == old(removed)
    {
      sub := new Subscriber(p, a.qos, a.liveliness, listener);
      subscribers := subscribers + {sub};
    }

    method RemoveParticipant(p: Participant)
      modifies this
      ensures removed == old(removed) + {p}
      ensures participants == old(participants) && publishers == old(publishers) && subscribers == old(subscribers)
    {
      removed := removed + {p};
    }
  }

  /** How the transport seeds the reliability handed to createPublisherAttributes / createSubscriberAttributes. */
  function SeedReliability(defaults: CommonQos, reliability: Option<ReliabilityKind>): CommonQos {
    match reliability
    case None => defaults
    case Some(r) => defaults.(reliability := r)
  }

  /**
   * What ReflectionUtil can find on the class path: payload classes with a
   * default constructor, and serializer classes by name.
   */
  datatype Classpath = Classpath(payloadTypes: set<string>, adapterTypes: set<string>)

  /** createIdlType(name) succeeds exactly when the payload class is present. */
  predicate CanCreatePayload(cp: Classpath, typeName: string) {
    typeName in cp.payloadTypes
  }

  /** createIdlPubSubType(name) looks for `name + "PubSubType"`. */
  predicate CanCreateAdapter(cp: Classpath, typeName: string) {
    typeName + "PubSubType" in cp.adapterTypes
  }
}
