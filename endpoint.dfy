/**
 * A DDS endpoint with its producer and consumers. The endpoint creates its
 * participant, publisher and subscriber lazily and then holds on to them;
 * the ghost sets record every handle the endpoint has ever created, so that
 * "created at most once" is an invariant. A consumer is either a fresh one
 * (a new payload object per sample) or a reusing one (one payload object
 * overwritten by every take).
 */
module Endpoints {
  import opened Wrappers
  import opened QosConfig
  import opened Transport
  import opened QosConfigurator

  /** How the Camel processor handled an exchange. */
  datatype ProcessOutcome =
    | Completed
      /** The processor threw. */
    | Threw
      /** The exchange ended failed, with or without an exception attached. */
    | FailedExchange(hasException: bool)

  /** Whether onReceive logs an error for this outcome (it never rethrows). */
  predicate ReportsError(outcome: ProcessOutcome) {
    outcome.Threw? || (outcome.FailedExchange? && outcome.hasException)
  }

  datatype ProduceError = NullBody | NoPublisher
  datatype ConsumerError = PayloadTypeUnavailable

  /** No object appears twice. */
  predicate Distinct<T(==)>(s: seq<T>) {
    forall i, j :: 0 <= i < j < |s| ==> s[i] != s[j]
  }

  /** The set of instances in a delivery log, compared by identity. */
  function Instances<T>(s: seq<T>): set<T> {
    set x | x in s
  }

  /** N distinct deliveries are N distinct instances. */
  lemma {:induction false} DistinctInstances<T>(s: seq<T>)
    requires Distinct(s)
    ensures |Instances(s)| == |s|
  {
    if s != [] {
      var t := s[1..];
      assert Distinct(t) by {
        forall i, j | 0 <= i < j < |t| ensures t[i] != t[j] {
          assert t[i] == s[i + 1] && t[j] == s[j + 1];
        }
      }
      DistinctInstances(t);
      assert s[0] !in Instances(t) by {
        forall k | 0 <= k < |t| ensures t[k] != s[0] {
          assert t[k] == s[k + 1];
        }
      }
      assert Instances(s) == {s[0]} + Instances(t) by {
        assert s == [s[0]] + t;
      }
    }
  }

  /** A non-empty log whose every entry is `x` holds exactly one instance. */
  lemma SameInstanceEverywhere<T>(s: seq<T>, x: T)
    requires |s| > 0
    requires forall i :: 0 <= i < |s| ==> s[i] == x
    ensures Instances(s) == {x}
    ensures |Instances(s)| == 1
  {
    assert s[0] in Instances(s);
  }

  class Endpoint {
    /** The endpoint URI without its query. */
    const uri: string
    const topicName: string
    /** Fully qualified name of the payload type. */
    const messageType: string
    const domainId: int
    const configurator: Configurator
    const reuse: bool
    /** The one transport domain shared by every endpoint. */
    const domain: Domain

    var participant: Participant?
    var publisher: Publisher?
    var subscriber: Subscriber?
    var started: bool
    var stopped: bool

    /** Every handle this endpoint has ever asked the transport to create. */
    ghost var participantsCreated: set<Participant>
    ghost var publishersCreated: set<Publisher>
    ghost var subscribersCreated: set<Subscriber>

    /**
     * Each handle is created at most once and, once created, is the one
     * held; publisher and subscriber hang off the endpoint's participant,
     * which was made for this endpoint's domain id and topic.
     */
    ghost predicate Valid()
      reads this
    {
      participantsCreated == (if participant == null then {} else {participant}) &&
      publishersCreated == (if publisher == null then {} else {publisher}) &&
      subscribersCreated == (if subscriber == null then {} else {subscriber}) &&
      (publisher != null ==> participant != null && publisher.participant == participant) &&
      (subscriber != null ==> participant != null && subscriber.participant == participant) &&
      (participant != null ==> participant.domainId == domainId && participant.name == topicName)
    }

    constructor (uri: string, topicName: string, messageType: string, domainId: int,
                 configurator: Configurator, reuse: bool, domain: Domain)
      ensures Valid()
      ensures this.uri == uri && this.topicName == topicName && this.messageType == messageType
      ensures this.domainId == domainId && this.configurator == configurator
      ensures this.reuse == reuse && this.domain == domain
      ensures participant == null && publisher == null && subscriber == null
      ensures !started && !stopped
    {
      this.uri := uri;
      this.topicName := topicName;
      this.messageType := messageType;
      this.domainId := domainId;
      this.configurator := configurator;
      this.reuse := reuse;
      this.domain := domain;
      participant, publisher, subscriber := null, null, null;
      started, stopped := false, false;
      participantsCreated, publishersCreated, subscribersCreated := {}, {}, {};
    }

    /** The participant, created on first use for (domainId, topicName). */
    method GetParticipant() returns (p: Participant)
      requires Valid()
      modifies this, domain
      ensures Valid()
      ensures participant == p
      ensures old(participant) != null ==> p == old(participant) && domain.participants == old(domain.participants)
      ensures old(participant) == null ==> fresh(p) && domain.participants == old(domain.participants) + {p}
      ensures domain.publishers == old(domain.publishers) && domain.subscribers == old(domain.subscribers)
      ensures domain.removed == old(domain.removed)
      ensures publisher == old(publisher) && subscriber == old(subscriber)
      ensures started == old(started) && stopped == old(stopped)
    {
      if participant == null {
        p := domain.CreateParticipant(domainId, topicName);
        participant := p;
        participantsCreated := {p};
      } else {
        p := participant;
      }
    }

    /**
     * The publisher, created on first use on the endpoint's participant
     * with attributes seeded by the config's reliability and then configured.
     */
    method GetPublisher() returns (pub: Publisher)
      requires Valid()
      modifies this, domain
      ensures Valid()
      ensures publisher == pub && pub.participant == participant
      ensures old(publisher) != null ==> pub == old(publisher) && participant == old(participant)
      ensures old(publisher) != null ==> domain.participants == old(domain.participants) && domain.publishers == old(domain.publishers)
      ensures old(publisher) == null ==> fresh(pub) && pub.written == [] && domain.publishers == old(domain.publishers) + {pub}
      ensures old(publisher) == null ==>
        pub.qos == ApplyCommon(configurator.config, SeedReliability(domain.writerDefaults, configurator.GetReliability())) &&
        pub.topicHistory == Override(configurator.config.history, domain.historyDefault) &&
        pub.publishMode == PublishModeOf(configurator.config)
      ensures old(participant) != null ==> participant == old(participant)
      ensures domain.subscribers == old(domain.subscribers) && domain.removed == old(domain.removed)
      ensures subscriber == old(subscriber) && started == old(started) && stopped == old(stopped)
    {
      if publisher == null {
        var p := GetParticipant();
        var attributes := domain.CreatePublisherAttributes(configurator.GetReliability());
        ConfigurePublisher(configurator, attributes);
        pub := domain.CreatePublisher(p, attributes);
        publisher := pub;
        publishersCreated := {pub};
      } else {
        pub := publisher;
      }
    }

    /**
     * The subscriber, created on first use with `consumer` as its listener.
     * A later call returns the existing subscriber and does not rebind it.
     */
    method GetSubscriber(consumer: Consumer) returns (sub: Subscriber)
      requires Valid()
      modifies this, domain
      ensures Valid()
      ensures subscriber == sub && sub.participant == participant
      ensures old(subscriber) != null ==> sub == old(subscriber) && participant == old(participant)
      ensures old(subscriber) != null ==> domain.participants == old(domain.participants) && domain.subscribers == old(domain.subscribers)
      ensures old(subscriber) == null ==> fresh(sub) && sub.listener == consumer && sub.queue == []
      ensures old(subscriber) == null ==> domain.subscribers == old(domain.subscribers) + {sub}
      ensures old(subscriber) == null ==>
        sub.qos == ApplyCommon(configurator.config, SeedReliability(domain.readerDefaults, configurator.GetReliability())) &&
        sub.liveliness == ApplyLiveliness(configurator.config, domain.fastRtps, TransportLiveliness)
      ensures old(participant) != null ==> participant == old(participant)
      ensures domain.publishers == old(domain.publishers) && domain.removed == old(domain.removed)
      ensures publisher == old(publisher) && started == old(started) && stopped == old(stopped)
    {
      if subscriber == null {
        var p := GetParticipant();
        var attributes := domain.CreateSubscriberAttributes(configurator.GetReliability());
        ConfigureSubscriber(configurator, attributes);
        sub := domain.CreateSubscriber(p, attributes, consumer);
        subscriber := sub;
        subscribersCreated := {sub};
      } else {
        sub := subscriber;
      }
    }

    /** createProducer: a producer that holds no publisher yet. */
    method CreateProducer() returns (producer: Producer)
      ensures fresh(producer) && producer.endpoint == this && producer.publisher == null
    {
      producer := new Producer(this);
    }

    /**
     * createConsumer: a reusing consumer exactly when `reuse` is set; the
     * reusing one instantiates the payload type, which must be on the class path.
     */
    method CreateConsumer(classpath: Classpath) returns (r: Result<Consumer, ConsumerError>)
      requires Valid()
      ensures reuse && !CanCreatePayload(classpath, messageType) ==> r == Failure(PayloadTypeUnavailable)
      ensures !reuse || CanCreatePayload(classpath, messageType) ==> r.Success?
      ensures r.Success? ==> fresh(r.value) && r.value.Valid() && r.value.endpoint == this
      ensures r.Success? ==> r.value.reusing == reuse && r.value.deliveries == []
      ensures r.Success? && reuse ==> fresh(r.value.data) && r.value.data.contents == DefaultSample
    {
      if reuse {
        if !CanCreatePayload(classpath, messageType) {
          return Failure(PayloadTypeUnavailable);
        }
        var c := new Consumer.Reusing(this);
        r := Success(c);
      } else {
        var c := new Consumer.Fresh(this);
        r := Success(c);
      }
    }

    /** Camel's start: marks the endpoint started; the DDS handles stay lazy. */
    method Start()
      modifies this
      ensures started && stopped == old(stopped)
      ensures participant == old(participant) && publisher == old(publisher) && subscriber == old(subscriber)
      ensures participantsCreated == old(participantsCreated) && publishersCreated == old(publishersCreated)
      ensures subscribersCreated == old(subscribersCreated)
    {
      started := true;
    }

    /**
     * doStop: fetches the participant (once for the log line, once for the
     * call), which creates one if there was none, and removes it from the domain.
     */
    method DoStop() returns (p: Participant)
      requires Valid()
      modifies this, domain
      ensures Valid()
      ensures participant == p && domain.removed == old(domain.removed) + {p}
      ensures old(participant) != null ==> p == old(participant) && domain.participants == old(domain.participants)
      ensures old(participant) == null ==> fresh(p) && domain.participants == old(domain.participants) + {p}
      ensures publisher == old(publisher) && subscriber == old(subscriber)
      ensures domain.publishers == old(domain.publishers) && domain.subscribers == old(domain.subscribers)
      ensures started == old(started) && stopped == old(stopped)
    {
      var logged := GetParticipant();
      p := GetParticipant();
      domain.RemoveParticipant(p);
    }

    /** close(): stops the endpoint the first time it is called. */
    method Close()
      requires Valid()
      modifies this, domain
      ensures Valid() && stopped
      ensures old(stopped) ==> domain.removed == old(domain.removed) && participant == old(participant)
      ensures !old(stopped) ==> participant != null && domain.removed == old(domain.removed) + {participant}
      ensures old(participant) != null ==> participant == old(participant)
      ensures publisher == old(publisher) && subscriber == old(subscriber)
    {
      if !stopped {
        var p := DoStop();
        stopped := true;
      }
    }
  }

  /** DdsProducer: writes exchange bodies to the publisher it fetched at start. */
  class Producer {
    const endpoint: Endpoint
    var publisher: Publisher?

    constructor (endpoint: Endpoint)
      ensures this.endpoint == endpoint && publisher == null
    {
      this.endpoint := endpoint;
      publisher := null;
    }

    /** doStart: start the endpoint when needed, then cache its publisher. */
    method DoStart()
      requires endpoint.Valid()
      modifies this, endpoint, endpoint.domain
      ensures endpoint.Valid() && endpoint.started
      ensures publisher != null && publisher == endpoint.publisher
      ensures old(endpoint.publisher) != null ==> publisher == old(endpoint.publisher)
      ensures old(endpoint.publisher) == null ==> fresh(publisher)
    {
      if !endpoint.started {
        endpoint.Start();
      }
      publisher := endpoint.GetPublisher();
    }

    /**
     * process: the body is rendered for the log line first (a null body
     * fails there), then written once to the cached publisher (a producer
     * that was never started has none and fails).
     */
    method Process(body: Option<Sample>) returns (r: Result<(), ProduceError>)
      modifies publisher
      ensures body.None? ==> r == Failure(NullBody)
      ensures body.Some? && publisher == null ==> r == Failure(NoPublisher)
      ensures body.Some? && publisher != null ==> r.Success? && publisher.written == old(publisher.written) + [body.value]
      ensures r.Failure? && publisher != null ==> publisher.written == old(publisher.written)
    {
      if body.None? {
        return Failure(NullBody);
      }
      if publisher == null {
        return Failure(NoPublisher);
      }
      publisher.Write(body.value);
      r := Success(());
    }
  }

  /** Two producers started on one endpoint write to the same publisher. */
  method ProducersShareOnePublisher(e: Endpoint) returns (first: Producer, second: Producer)
    requires e.Valid()
    modifies e, e.domain
    ensures e.Valid()
    ensures first.publisher != null && first.publisher == second.publisher
    ensures |e.publishersCreated| == 1
  {
    first := e.CreateProducer();
    second := e.CreateProducer();
    first.DoStart();
    second.DoStart();
  }

  /**
   * DdsConsumer and DdsReusingConsumer. `reusing` selects the variant; the
   * reusing one owns one payload object and one SampleInfo for its lifetime.
   * The ghost log records every object handed to the processor, and the
   * payload values it held at that moment.
   */
  class Consumer {
    const endpoint: Endpoint
    const reusing: bool
    const data: Message?
    const sampleInfo: SampleInfo?
    ghost var deliveries: seq<Message>
    ghost var deliveredContents: seq<Sample>
    ghost var errorsLogged: nat

    ghost predicate Valid()
      reads this, data
    {
      (reusing <==> data != null) && (reusing <==> sampleInfo != null) &&
      |deliveries| == |deliveredContents| &&
      (reusing ==> forall i :: 0 <= i < |deliveries| ==> deliveries[i] == data) &&
      (reusing && |deliveries| > 0 ==> data.contents == deliveredContents[|deliveredContents| - 1]) &&
      (!reusing ==> Distinct(deliveries))
    }

    /** A DdsConsumer. */
    constructor Fresh(endpoint: Endpoint)
      ensures Valid() && this.endpoint == endpoint && !reusing
      ensures deliveries == [] && deliveredContents == [] && errorsLogged == 0
    {
      this.endpoint := endpoint;
      reusing := false;
      data := null;
      sampleInfo := null;
      deliveries, deliveredContents, errorsLogged := [], [], 0;
    }

    /** A DdsReusingConsumer: its payload object and SampleInfo are allocated here, once. */
    constructor Reusing(endpoint: Endpoint)
      ensures Valid() && this.endpoint == endpoint && reusing
      ensures fresh(data) && data.contents == DefaultSample && fresh(sampleInfo)
      ensures deliveries == [] && deliveredContents == [] && errorsLogged == 0
    {
      this.endpoint := endpoint;
      reusing := true;
      data := new Message(DefaultSample);
      sampleInfo := new SampleInfo();
      deliveries, deliveredContents, errorsLogged := [], [], 0;
    }

    /**
     * onReceive: a null payload fails while being rendered for the log and
     * never reaches the processor; otherwise it is delivered. Either way a
     * failure is logged and nothing propagates.
     */
    method OnReceive(m: Message?, outcome: ProcessOutcome)
      modifies this
      ensures m == null ==> deliveries == old(deliveries) && deliveredContents == old(deliveredContents)
      ensures m == null ==> errorsLogged == old(errorsLogged) + 1
      ensures m != null ==> deliveries == old(deliveries) + [m] && deliveredContents == old(deliveredContents) + [m.contents]
      ensures m != null ==> errorsLogged == old(errorsLogged) + (if ReportsError(outcome) then 1 else 0)
    {
      if m == null {
        errorsLogged := errorsLogged + 1;
      } else {
        deliveries := deliveries + [m];
        deliveredContents := deliveredContents + [m.contents];
        if ReportsError(outcome) {
          errorsLogged := errorsLogged + 1;
        }
      }
    }

    /**
     * onNewDataMessage: one take per notification. The fresh variant
     * delivers whatever takeNextData() returned (null included); the
     * reusing variant decodes into its own object and delivers it only
     * when a sample was taken.
     */
    method OnNewDataMessage(sub: Subscriber, outcome: ProcessOutcome)
      requires Valid()
      modifies this, sub, data, sampleInfo
      ensures Valid()
      ensures old(sub.queue) != [] ==> sub.queue == old(sub.queue)[1..]
      ensures old(sub.queue) != [] ==> deliveredContents == old(deliveredContents) + [old(sub.queue)[0]]
      ensures old(sub.queue) != [] ==> |deliveries| == |old(deliveries)| + 1
      ensures old(sub.queue) != [] ==> errorsLogged == old(errorsLogged) + (if ReportsError(outcome) then 1 else 0)
      ensures old(sub.queue) == [] ==> sub.queue == [] && deliveries == old(deliveries)
      ensures old(sub.queue) == [] ==> deliveredContents == old(deliveredContents)
      ensures old(sub.queue) == [] ==> errorsLogged == old(errorsLogged) + (if reusing then 0 else 1)
    {
      if reusing {
        var taken := sub.TakeNextDataInto(data, sampleInfo);
        if taken {
          OnReceive(data, outcome);
        }
      } else {
        var m := sub.TakeNextData();
        OnReceive(m, outcome);
      }
    }

    /** onSubscriptionMatched only logs. */
    method OnSubscriptionMatched(sub: Subscriber)
      ensures unchanged(this) && unchanged(sub)
    {
    }

    /** doStart: start the endpoint when needed, then register as its subscriber's listener. */
    method DoStart()
      requires endpoint.Valid()
      modifies endpoint, endpoint.domain
      ensures endpoint.Valid() && endpoint.started
      ensures endpoint.subscriber != null
      ensures old(endpoint.subscriber) != null ==> endpoint.subscriber == old(endpoint.subscriber)
      ensures old(endpoint.subscriber) == null ==> endpoint.subscriber.listener == this
    {
      if !endpoint.started {
        endpoint.Start();
      }
      var sub := endpoint.GetSubscriber(this);
    }
  }

  /** Without reuse, N deliveries are N distinct payload objects. */
  lemma FreshConsumerDeliversDistinctInstances(c: Consumer)
    requires c.Valid() && !c.reusing
    ensures |Instances(c.deliveries)| == |c.deliveries|
  {
    DistinctInstances(c.deliveries);
  }

  /** With reuse, any number of deliveries is one payload object, holding the last sample. */
  lemma ReusingConsumerDeliversOneInstance(c: Consumer)
    requires c.Valid() && c.reusing && |c.deliveries| > 0
    ensures Instances(c.deliveries) == {c.data}
    ensures c.data.contents == c.deliveredContents[|c.deliveredContents| - 1]
  {
    SameInstanceEverywhere(c.deliveries, c.data);
  }

  /** Seeding the attributes with the config's own reliability does not change the configured QoS. */
  lemma SeedingIsOverridden(c: Config, defaults: CommonQos)
    ensures ApplyCommon(c, SeedReliability(defaults, c.reliability)) == ApplyCommon(c, defaults)
  {
  }
}
