# ihmc-camel core, modelled in Dafny

This project models the core of ihmc-camel, an Apache Camel gateway to the IHMC DDS publish/subscribe
library, together with the source-patching and packaging tools that ship with it.

- **The `dds:` Camel component.**
  - `DdsCamelComponent` parses `dds:<topic>:<domain>/<type>?qos=…&reuse=…` URIs into endpoints and stops them.
  - `DdsUriBuilder` builds those URIs.
  - `DdsQoSConfigManager` is the registry of named QoS profiles, with the built-ins `low` and `high`.
  - `DdsQosConfig` is the immutable profile record.
  - `DdsQosConfigurator` writes a profile onto publisher and subscriber attributes.
  - `DdsEndpoint` memoises one participant, one publisher and one subscriber.
  - `DdsProducer` writes message bodies to the endpoint's publisher.
  - `DdsConsumer` and `DdsReusingConsumer` take samples off the subscriber and deliver them. The reusing consumer decodes every sample into one pre-allocated instance.
- **The chat sample's `ChatManager`.** It keeps registries of channels and users and formats messages.
- **The idl-tools source patchers.**
  - `AbstractProcessor` decides whether a source is an IDL type and provides positional member insertion.
  - `UtilityProcessor` adds `hashCode`, `copy` and a field constructor.
  - `CompatibilityProcessor` does the CAFE pass: a `KeyList` annotation, `this.`-qualified setters and removal of IHMC's trailing field underscores.
- **The bytecode generator `HashCodeGenerator`.** It emits `return Objects.hash(this.f1, …, this.fn)` as JVM instructions.
- **`CompileSrc.writeToJar`.** It decides the order of the jar's directory and file entries.

Stateful Java objects are Dafny classes with `modifies` clauses. Pure computations are functions, and loops
are methods proved against those functions. The IHMC transport (`transport.dfy`) is an abstract stand-in.
Each of its classes records only what the gateway relies on: what it allocated, what was written, and the
queue of samples a subscriber holds.

A URI without a `qos` parameter is rejected. The absent parameter becomes the string `"null"`, the
registry answers `null` for that name, and the `DdsQosConfigurator` constructor throws
(`CamelComponent.MissingQosFails`).

| file | module | models |
|---|---|---|
| wrappers.dfy | Wrappers | `Option` / `Result` |
| strings.dfy | Strings | `\w`, `\d`, `indexOf`, `lastIndexOf`, `String.join`, `Integer.toString` |
| qos_config.dfy | QosConfig | `DdsQosConfig` and the policy enums |
| qos_registry.dfy | QosRegistry | `DdsQoSConfigManager` |
| qos_configurator.dfy | QosConfigurator | `DdsQosConfigurator` |
| transport.dfy | Transport | the IHMC pub/sub objects the gateway calls, and `ReflectionUtil` as a `Classpath` |
| endpoint.dfy | Endpoints | `DdsEndpoint`, `DdsProducer`, `DdsConsumer`, `DdsReusingConsumer` |
| component.dfy | CamelComponent | `DdsCamelComponent` |
| uri_builder.dfy | UriBuilding | `DdsUriBuilder` |
| chat_manager.dfy | Chat | `ChatManager` |
| source_model.dfy | SourceModel | `AbstractProcessor` and a compilation unit as a member list |
| utility_processor.dfy | UtilityPatching | `UtilityProcessor` |
| compatibility_processor.dfy | CompatibilityPatching | `CompatibilityProcessor` |
| hash_code_generator.dfy | HashCodeGeneration | `HashCodeGenerator`, plus a small stack machine that gives the emitted code a meaning |
| jar_layout.dfy | JarLayout | the entry order of `CompileSrc.writeToJar` |

## Model

| member | source | states |
|---|---|---|
| QosConfig.NewPublisherConfig | camel/src/main/java/com/chesapeaketechnology/dds/DdsQosConfig.java:52-63 | every getter returns the value passed to the seven-argument constructor, `null` (None) meaning unset |
| QosConfig.NewSubscriberConfig | camel/src/main/java/com/chesapeaketechnology/dds/DdsQosConfig.java:35-39 | the six-argument constructor keeps its arguments and is never asynchronous |
| QosRegistry.Lookup | camel/src/main/java/com/chesapeaketechnology/dds/DdsQoSConfigManager.java:43-50 | `null` and `"null"` resolve to nothing; any other name resolves iff it is registered, to the registered config |
| QosRegistry.Registered | camel/src/main/java/com/chesapeaketechnology/dds/DdsQoSConfigManager.java:33-37 | registering adds the config under its own name, overwrites that name and keeps every other entry |
| QosRegistry.RegisterThenLookup | camel/src/main/java/com/chesapeaketechnology/dds/DdsQoSConfigManager.java:33-50 | register then getConfig by the config's name returns it, when the name is not "null" |
| QosRegistry.RegisterKeepsOtherNames | camel/src/main/java/com/chesapeaketechnology/dds/DdsQoSConfigManager.java:33-50 | registering does not change what any other name resolves to |
| QosRegistry.NullNameIsUnreachable | camel/src/main/java/com/chesapeaketechnology/dds/DdsQoSConfigManager.java:45-48 | a config named "null" is stored but can never be looked up |
| QosRegistry.ConfigManager.constructor | camel/src/main/java/com/chesapeaketechnology/dds/DdsQoSConfigManager.java:60-80 | the static initialiser leaves exactly `low` and `high` in the table |
| QosRegistry.ConfigManager.Register | camel/src/main/java/com/chesapeaketechnology/dds/DdsQoSConfigManager.java:33-37 | the new table is `Registered(old table, c)` |
| QosRegistry.ConfigManager.GetConfig | camel/src/main/java/com/chesapeaketechnology/dds/DdsQoSConfigManager.java:43-50 | lookup in the current table |
| QosRegistry.ConfigManager.Configs | camel/src/main/java/com/chesapeaketechnology/dds/DdsQoSConfigManager.java:55-58 | a config is returned iff it is the one registered under its name |
| QosRegistry.InitialisedRegistryResolvesBuiltins | camel/src/main/java/com/chesapeaketechnology/dds/DdsQoSConfigManager.java:60-80 | `low` is best-effort/volatile/shared/keep-last, `high` is reliable/transient-local/exclusive/keep-all, neither sets liveliness or asynchrony, and unknown names resolve to nothing |
| QosConfigurator.NewConfigurator | camel/src/main/java/com/chesapeaketechnology/dds/DdsQosConfigurator.java:26-30 | construction fails iff the config is null; otherwise getReliability is the config's reliability |
| QosConfigurator.ApplyCommon | camel/src/main/java/com/chesapeaketechnology/dds/DdsQosConfigurator.java:80-85 | reliability, durability and ownership are overwritten exactly where the config sets them and kept otherwise |
| QosConfigurator.PublishModeOf | camel/src/main/java/com/chesapeaketechnology/dds/DdsQosConfigurator.java:71-72 | the publish mode is asynchronous iff the config is asynchronous |
| QosConfigurator.ApplyLiveliness | camel/src/main/java/com/chesapeaketechnology/dds/DdsQosConfigurator.java:37-57 | liveliness changes only for FastRTPS attributes with a liveliness kind, and then to that kind |
| QosConfigurator.ApplyCommonIdempotent | camel/src/main/java/com/chesapeaketechnology/dds/DdsQosConfigurator.java:80-85 | applying a config twice is the same as applying it once |
| QosConfigurator.OnlyReliabilitySet | camel/src/main/java/com/chesapeaketechnology/dds/DdsQosConfigurator.java:80-85 | a config that sets only reliability changes only reliability |
| QosConfigurator.AppliedAgreesWithConfig | camel/src/main/java/com/chesapeaketechnology/dds/DdsQosConfigurator.java:80-85 | after applying, every policy the config sets has the config's value |
| QosConfigurator.ConfigurePublisher | camel/src/main/java/com/chesapeaketechnology/dds/DdsQosConfigurator.java:64-73 | common QoS applied, topic history overwritten only when set, publish mode always written |
| QosConfigurator.ConfigureSubscriber | camel/src/main/java/com/chesapeaketechnology/dds/DdsQosConfigurator.java:37-41 | common QoS applied and liveliness per `ApplyLiveliness`; subscriber attributes carry no history or publish mode in the model, so those two publisher-only steps have nothing to act on |
| QosConfigurator.ConfigureFastRtpsSubscriber | camel/src/main/java/com/chesapeaketechnology/dds/DdsQosConfigurator.java:48-57 | only the liveliness policy changes, and only when the config sets a kind |
| QosConfigurator.ConfigureCommon | camel/src/main/java/com/chesapeaketechnology/dds/DdsQosConfigurator.java:80-85 | the common QoS becomes `ApplyCommon`; history and publish mode are unchanged |
| CamelComponent.MatchSound | camel/src/main/java/com/chesapeaketechnology/dds/DdsCamelComponent.java:27 | a successful match returns groups that satisfy `(\w+):(\d+)/([\w.:]+)` and rebuild the input |
| CamelComponent.MatchComplete | camel/src/main/java/com/chesapeaketechnology/dds/DdsCamelComponent.java:27 | every decomposition that satisfies the pattern is the one found |
| CamelComponent.MatchIff | camel/src/main/java/com/chesapeaketechnology/dds/DdsCamelComponent.java:27-38 | the matcher returns these groups iff the input fully matches the pattern with them |
| CamelComponent.StripQuery | camel/src/main/java/com/chesapeaketechnology/dds/DdsCamelComponent.java:46-49 | the stored URI is the prefix before the first '?', or the whole URI when there is none |
| CamelComponent.ParamString | camel/src/main/java/com/chesapeaketechnology/dds/DdsCamelComponent.java:41-44 | an absent parameter stringifies to "null" |
| CamelComponent.Resolve | camel/src/main/java/com/chesapeaketechnology/dds/DdsCamelComponent.java:32-74 | fails with "Invalid DDS URI" iff the pattern does not match; on success it carries the matched topic, parsed domain, type and resolved config |
| CamelComponent.MissingQosFails | camel/src/main/java/com/chesapeaketechnology/dds/DdsCamelComponent.java:41-53 | a URI without `qos` never yields an endpoint |
| CamelComponent.UnknownQosFails | camel/src/main/java/com/chesapeaketechnology/dds/DdsCamelComponent.java:41-53 | an unregistered `qos` name fails at the configurator's null check |
| CamelComponent.OversizedDomainFails | camel/src/main/java/com/chesapeaketechnology/dds/DdsCamelComponent.java:52 | a domain beyond 2147483647 fails in `parseInt` |
| CamelComponent.WellFormedResolves | camel/src/main/java/com/chesapeaketechnology/dds/DdsCamelComponent.java:32-74 | a matching URI with an int-sized domain, a loadable type and a registered `qos` resolves to exactly those parts |
| CamelComponent.ReuseOnlyWhenTrue | camel/src/main/java/com/chesapeaketechnology/dds/DdsCamelComponent.java:44 | reuse is on iff the parameter is present and equals "true" ignoring case |
| CamelComponent.OtherParametersIgnored | camel/src/main/java/com/chesapeaketechnology/dds/DdsCamelComponent.java:76-80 | parameters other than `qos` and `reuse` never change the outcome |
| CamelComponent.Component.constructor | camel/src/main/java/com/chesapeaketechnology/dds/DdsCamelComponent.java:29 | the component starts with an empty endpoint map |
| CamelComponent.Component.CreateEndpoint | camel/src/main/java/com/chesapeaketechnology/dds/DdsCamelComponent.java:32-74 | on failure the map is unchanged; on success a fresh endpoint built from `Resolve` is stored under the stripped URI, replacing any previous one |
| CamelComponent.Component.DoStop | camel/src/main/java/com/chesapeaketechnology/dds/DdsCamelComponent.java:83-89 | every endpoint in the map ends stopped, and each one not stopped before has its participant removed |
| UriBuilding.Build | camel/src/main/java/com/chesapeaketechnology/dds/DdsUriBuilder.java:77-97 | a null domain fails first, then a null content type; otherwise the URI starts with `dds:<simple>:<domain>/<full>` |
| UriBuilding.UriBuilder.Create | camel/src/main/java/com/chesapeaketechnology/dds/DdsUriBuilder.java:13-26 | a new builder has domain "0" and no config or content type |
| UriBuilding.UriBuilder.QualityByName | camel/src/main/java/com/chesapeaketechnology/dds/DdsUriBuilder.java:32-35 | sets the config to the registry lookup of the name, returns the same builder and changes nothing else |
| UriBuilding.UriBuilder.Quality | camel/src/main/java/com/chesapeaketechnology/dds/DdsUriBuilder.java:41-45 | sets only the config and returns the same builder |
| UriBuilding.UriBuilder.DomainId | camel/src/main/java/com/chesapeaketechnology/dds/DdsUriBuilder.java:51-54 | sets only the domain, to the decimal text of the id, which reads back as the id when non-negative |
| UriBuilding.UriBuilder.DomainName | camel/src/main/java/com/chesapeaketechnology/dds/DdsUriBuilder.java:60-64 | sets only the domain |
| UriBuilding.UriBuilder.Content | camel/src/main/java/com/chesapeaketechnology/dds/DdsUriBuilder.java:70-74 | sets only the content type |
| UriBuilding.UriBuilder.ToString | camel/src/main/java/com/chesapeaketechnology/dds/DdsUriBuilder.java:77-97 | renders the builder's current fields |
| UriBuilding.QuerySuffix | camel/src/main/java/com/chesapeaketechnology/dds/DdsUriBuilder.java:89-95 | with a config set, the URI is the config-less URI followed directly by `?qos=<name>`; without one it is exactly `dds:<simple>:<domain>/<full>` |
| UriBuilding.StripAppendedQuery | camel/src/main/java/com/chesapeaketechnology/dds/DdsUriBuilder.java:92-95 | stripping the query from a base that has no '?' gives the base back |
| UriBuilding.BuildThenMatch | camel/src/main/java/com/chesapeaketechnology/dds/DdsUriBuilder.java:89-91 | round trip: the component's pattern recovers the simple name, the domain and the full type name from a built URI |
| UriBuilding.BuildStripsToBase | camel/src/main/java/com/chesapeaketechnology/dds/DdsUriBuilder.java:89-95 | the endpoint key of a built URI is the URI without its query |
| UriBuilding.BuiltUriResolves | camel/src/main/java/com/chesapeaketechnology/dds/DdsUriBuilder.java:77-97 | a URI built with a registered config resolves in the component to that topic, domain, type and config |
| UriBuilding.UnknownQualityEmitsNoQuery | camel/src/main/java/com/chesapeaketechnology/dds/DdsUriBuilder.java:32-35 | `quality` with an unregistered name yields a URI with no query |
| UriBuilding.RegisteredQualityEndsWithName | camel/src/main/java/com/chesapeaketechnology/dds/DdsUriBuilder.java:92-95 | for each registered config, the built URI ends with `?qos=<name>` |
| Endpoints.DistinctInstances | camel/src/main/java/com/chesapeaketechnology/dds/DdsConsumer.java:65 | a duplicate-free delivery log has as many instances as deliveries |
| Endpoints.SameInstanceEverywhere | camel/src/main/java/com/chesapeaketechnology/dds/DdsReusingConsumer.java:40-42 | a non-empty log of one object has exactly one instance |
| Endpoints.Endpoint.constructor | camel/src/main/java/com/chesapeaketechnology/dds/DdsEndpoint.java:58-68 | a new endpoint keeps its arguments and holds no participant, publisher or subscriber |
| Endpoints.Endpoint.GetParticipant | camel/src/main/java/com/chesapeaketechnology/dds/DdsEndpoint.java:134-144 | creates a participant only on the first call and returns the same one afterwards |
| Endpoints.Endpoint.GetPublisher | camel/src/main/java/com/chesapeaketechnology/dds/DdsEndpoint.java:97-108 | creates one publisher on the endpoint's participant, seeded with the config's reliability and then configured; later calls return it unchanged |
| Endpoints.Endpoint.GetSubscriber | camel/src/main/java/com/chesapeaketechnology/dds/DdsEndpoint.java:117-128 | creates one subscriber with this consumer as listener; later calls return it and never rebind the listener |
| Endpoints.Endpoint.CreateProducer | camel/src/main/java/com/chesapeaketechnology/dds/DdsEndpoint.java:71-75 | a fresh producer bound to this endpoint with no publisher yet |
| Endpoints.Endpoint.CreateConsumer | camel/src/main/java/com/chesapeaketechnology/dds/DdsEndpoint.java:78-89 | a reusing consumer iff `reuse`; that consumer fails when the payload type cannot be instantiated |
| Endpoints.Endpoint.DoStop | camel/src/main/java/com/chesapeaketechnology/dds/DdsEndpoint.java:147-153 | removes the participant, creating one first if none existed |
| Endpoints.Endpoint.Close | camel/src/main/java/com/chesapeaketechnology/dds/DdsEndpoint.java:147-153 | stopping is done once: the first close removes the participant, later ones do nothing |
| Endpoints.Producer.constructor | camel/src/main/java/com/chesapeaketechnology/dds/DdsProducer.java:25-29 | no publisher is allocated at construction |
| Endpoints.Producer.DoStart | camel/src/main/java/com/chesapeaketechnology/dds/DdsProducer.java:40-50 | starts the endpoint and caches the endpoint's memoised publisher |
| Endpoints.Producer.Process | camel/src/main/java/com/chesapeaketechnology/dds/DdsProducer.java:32-37 | writes exactly the body once; a null body or a missing publisher fails and writes nothing |
| Endpoints.ProducersShareOnePublisher | camel/src/main/java/com/chesapeaketechnology/dds/DdsProducer.java:49 | two producers on one endpoint hold the same publisher, and only one was created |
| Endpoints.Consumer.Fresh | camel/src/main/java/com/chesapeaketechnology/dds/DdsConsumer.java:30-34 | a plain consumer starts with no deliveries |
| Endpoints.Consumer.Reusing | camel/src/main/java/com/chesapeaketechnology/dds/DdsReusingConsumer.java:29-33 | the payload instance and the sample info are allocated once, at construction |
| Endpoints.Consumer.OnReceive | camel/src/main/java/com/chesapeaketechnology/dds/DdsConsumer.java:41-57 | a message is delivered once; a processing error or a null message is logged and never propagates |
| Endpoints.Consumer.OnNewDataMessage | camel/src/main/java/com/chesapeaketechnology/dds/DdsReusingConsumer.java:37-44 | one sample taken and delivered per notification; an empty queue delivers nothing (the plain consumer logs the null) |
| Endpoints.Consumer.OnSubscriptionMatched | camel/src/main/java/com/chesapeaketechnology/dds/DdsConsumer.java:69-73 | changes no state |
| Endpoints.Consumer.DoStart | camel/src/main/java/com/chesapeaketechnology/dds/DdsConsumer.java:76-86 | starts the endpoint and registers this consumer as the listener of a newly created subscriber |
| Endpoints.FreshConsumerDeliversDistinctInstances | camel/src/main/java/com/chesapeaketechnology/dds/DdsConsumer.java:61-66 | a plain consumer's N deliveries are N distinct objects |
| Endpoints.ReusingConsumerDeliversOneInstance | camel/src/main/java/com/chesapeaketechnology/dds/DdsReusingConsumer.java:37-44 | every delivery of a reusing consumer is the same object, holding the most recent contents |
| Endpoints.SeedingIsOverridden | camel/src/main/java/com/chesapeaketechnology/dds/DdsEndpoint.java:97-128 | seeding the attributes with the config's reliability and then configuring equals configuring the defaults |
| Chat.Format | impl-common/src/main/java/com/chesapeaketechnology/dds/ChatManager.java:41-55 | an unknown channel fails first, then an unknown user; otherwise the text is `[channel] user: text` |
| Chat.ChatManager.constructor | impl-common/src/main/java/com/chesapeaketechnology/dds/ChatManager.java:17-18 | both registries start empty |
| Chat.ChatManager.RegisterChannel | impl-common/src/main/java/com/chesapeaketechnology/dds/ChatManager.java:23-25 | stores the channel under its id, replacing any previous one, and leaves the users untouched |
| Chat.ChatManager.RegisterUser | impl-common/src/main/java/com/chesapeaketechnology/dds/ChatManager.java:30-32 | stores the user under its id, replacing any previous one, and leaves the channels untouched |
| Chat.ChatManager.MessageToString | impl-common/src/main/java/com/chesapeaketechnology/dds/ChatManager.java:41-55 | formats against the current registries without changing them |
| Chat.RegisteredMessageFormats | impl-common/src/main/java/com/chesapeaketechnology/dds/ChatManager.java:23-55 | after registering a channel and a user, their message formats with their names |
| Chat.ChannelCheckedFirst | impl-common/src/main/java/com/chesapeaketechnology/dds/ChatManager.java:43-48 | when both ids are unknown, the channel error is reported |
| Chat.UserCannotRescueChannel | impl-common/src/main/java/com/chesapeaketechnology/dds/ChatManager.java:30-45 | registering a user never makes a message to an unknown channel succeed |
| Chat.OtherChannelIrrelevant | impl-common/src/main/java/com/chesapeaketechnology/dds/ChatManager.java:23-55 | registering another channel does not change a message's outcome |
| Chat.ChatRoundTrip | impl-common/src/main/java/com/chesapeaketechnology/dds/ChatManager.java:23-55 | an example on one concrete registry: register, format, and the unknown-user error |
| SourceModel.SourceState.constructor | idl-tools/src/main/java/com/chesapeaketechnology/idl/patch/AbstractProcessor.java:25-29 | the type is IDL iff the initial code contains " extends Packet<" |
| SourceModel.SourceState.SetCode | idl-tools/src/main/java/com/chesapeaketechnology/idl/patch/AbstractProcessor.java:53-61 | replaces the code and never the IDL flag |
| SourceModel.FieldsOfMembership | idl-tools/src/main/java/com/chesapeaketechnology/idl/patch/UtilityProcessor.java:92-101 | a field is found iff it is declared as a member |
| SourceModel.FirstMatch | idl-tools/src/main/java/com/chesapeaketechnology/idl/patch/AbstractProcessor.java:72-78 | the first index where the predicate holds on (previous member or null, member) |
| SourceModel.InsertAfter | idl-tools/src/main/java/com/chesapeaketechnology/idl/patch/AbstractProcessor.java:70-80 | inserts at the first matching index and changes nothing else |
| SourceModel.InsertedLength | idl-tools/src/main/java/com/chesapeaketechnology/idl/patch/AbstractProcessor.java:72-79 | the length grows by one on a match; with no match the list is unchanged and nothing is appended |
| SourceModel.InsertedPlacement | idl-tools/src/main/java/com/chesapeaketechnology/idl/patch/AbstractProcessor.java:76 | the body sits at the match index, with the members before and after in their old order |
| UtilityPatching.HashArguments | idl-tools/src/main/java/com/chesapeaketechnology/idl/patch/UtilityProcessor.java:92-101 | one hash argument per field, in declaration order |
| UtilityPatching.ConstructorParameters | idl-tools/src/main/java/com/chesapeaketechnology/idl/patch/UtilityProcessor.java:159-167 | one parameter per field, in order |
| UtilityPatching.ConstructorAssignments | idl-tools/src/main/java/com/chesapeaketechnology/idl/patch/UtilityProcessor.java:172-186 | one assignment per field, in order |
| UtilityPatching.UtilityPatch | idl-tools/src/main/java/com/chesapeaketechnology/idl/patch/UtilityProcessor.java:55-81 | non-IDL code and all-false flags return the code unchanged; it fails iff the parse is needed and fails |
| UtilityPatching.CollectHashArguments | idl-tools/src/main/java/com/chesapeaketechnology/idl/patch/UtilityProcessor.java:92-101 | the loop builds exactly `HashArguments` |
| UtilityPatching.ConstructorAssignmentsFollowFields | idl-tools/src/main/java/com/chesapeaketechnology/idl/patch/UtilityProcessor.java:172-186 | each field is assigned from its parameter: `this.f = new StringBuilder(f)` exactly for StringBuilder fields, `this.f = f` exactly for the others |
| UtilityPatching.CollectAssignments | idl-tools/src/main/java/com/chesapeaketechnology/idl/patch/UtilityProcessor.java:171-187 | the loop builds exactly `ConstructorAssignments` |
| UtilityPatching.VisitHashcode | idl-tools/src/main/java/com/chesapeaketechnology/idl/patch/UtilityProcessor.java:88-113 | adds the `Objects` import and appends `hashCode` over the fields |
| UtilityPatching.VisitCopy | idl-tools/src/main/java/com/chesapeaketechnology/idl/patch/UtilityProcessor.java:124-144 | inserts `copy()` after the first `set` method |
| UtilityPatching.VisitConstructor | idl-tools/src/main/java/com/chesapeaketechnology/idl/patch/UtilityProcessor.java:156-191 | inserts the field constructor at the first constructor-to-method boundary |
| UtilityPatching.UtilityProcessor.constructor | idl-tools/src/main/java/com/chesapeaketechnology/idl/patch/UtilityProcessor.java:46-52 | keeps the code and the three flags and computes the IDL flag |
| UtilityPatching.UtilityProcessor.Apply | idl-tools/src/main/java/com/chesapeaketechnology/idl/patch/UtilityProcessor.java:55-81 | runs constructor, copy and hash in that order, each only when flagged |
| UtilityPatching.HashArgumentsFollowFields | idl-tools/src/main/java/com/chesapeaketechnology/idl/patch/UtilityProcessor.java:94-100 | each argument is the field name, with `.toString()` added iff the type ends in StringBuilder |
| UtilityPatching.ConstructorParametersFollowFields | idl-tools/src/main/java/com/chesapeaketechnology/idl/patch/UtilityProcessor.java:159-167 | each parameter has the field's name and type, except that StringBuilder becomes String |
| UtilityPatching.InsertKeepsFields | idl-tools/src/main/java/com/chesapeaketechnology/idl/patch/AbstractProcessor.java:70-80 | inserting a non-field member never changes the field list |
| UtilityPatching.HashCodeSeesOriginalFields | idl-tools/src/main/java/com/chesapeaketechnology/idl/patch/UtilityProcessor.java:68-79 | the earlier passes do not change the fields that hashCode enumerates |
| UtilityPatching.CopyFollowsFirstSetter | idl-tools/src/main/java/com/chesapeaketechnology/idl/patch/UtilityProcessor.java:142-143 | `copy()` lands right after the first `set` method |
| UtilityPatching.NoSetterNoCopy | idl-tools/src/main/java/com/chesapeaketechnology/idl/patch/UtilityProcessor.java:142-143 | without a `set` method before the last member, no copy is inserted |
| UtilityPatching.ConstructorAtBoundary | idl-tools/src/main/java/com/chesapeaketechnology/idl/patch/UtilityProcessor.java:189-190 | the constructor lands between the last leading constructor and the following method |
| CompatibilityPatching.StripUnderscores | idl-tools/src/main/java/com/chesapeaketechnology/idl/patch/CompatibilityProcessor.java:62 | the underscore filter never lengthens the text |
| CompatibilityPatching.NoUnderscoreUnchanged | idl-tools/src/main/java/com/chesapeaketechnology/idl/patch/CompatibilityProcessor.java:62 | text without '_' is unchanged |
| CompatibilityPatching.OnlyUnderscoresRemoved | idl-tools/src/main/java/com/chesapeaketechnology/idl/patch/CompatibilityProcessor.java:62 | every character other than '_' keeps its count |
| CompatibilityPatching.TrailingUnderscoreRemoved | idl-tools/src/main/java/com/chesapeaketechnology/idl/patch/CompatibilityProcessor.java:60-62 | IHMC's trailing underscore on a word is removed |
| CompatibilityPatching.DoubleUnderscoreKeepsOne | idl-tools/src/main/java/com/chesapeaketechnology/idl/patch/CompatibilityProcessor.java:62 | only an underscore before a boundary goes, so "a__" becomes "a_"; the filter is not idempotent |
| CompatibilityPatching.KeyName | idl-tools/src/main/java/com/chesapeaketechnology/idl/patch/CompatibilityProcessor.java:85-86 | the key is the field name without its last character |
| CompatibilityPatching.KeyNameDropsIhmcSuffix | idl-tools/src/main/java/com/chesapeaketechnology/idl/patch/CompatibilityProcessor.java:84-86 | for an IHMC field `w_` the key is `w` |
| CompatibilityPatching.RenderNoKeys | idl-tools/src/main/java/com/chesapeaketechnology/idl/patch/CompatibilityProcessor.java:96 | no keys render as `{""}` |
| CompatibilityPatching.RenderOneKey | idl-tools/src/main/java/com/chesapeaketechnology/idl/patch/CompatibilityProcessor.java:96 | one key renders as `{"k"}` |
| CompatibilityPatching.TopicType | idl-tools/src/main/java/com/chesapeaketechnology/idl/patch/CompatibilityProcessor.java:95 | the topic type is the text after the last '.': it holds no '.', directly follows a '.' and ends the name; it is the whole name when there is no '.' |
| CompatibilityPatching.CommentedKeys | idl-tools/src/main/java/com/chesapeaketechnology/idl/patch/CompatibilityProcessor.java:79-89 | at most one key per member |
| CompatibilityPatching.ClearComment | idl-tools/src/main/java/com/chesapeaketechnology/idl/patch/CompatibilityProcessor.java:87 | clearing removes a field's comment and keeps its name and type; other members are untouched |
| CompatibilityPatching.Uncommented | idl-tools/src/main/java/com/chesapeaketechnology/idl/patch/CompatibilityProcessor.java:79-89 | every member has its comment cleared, in place |
| CompatibilityPatching.CafeAnnotated | idl-tools/src/main/java/com/chesapeaketechnology/idl/patch/CompatibilityProcessor.java:70-100 | without "@key" nothing changes; imports and primary type are always kept |
| CompatibilityPatching.FixStatement | idl-tools/src/main/java/com/chesapeaketechnology/idl/patch/CompatibilityProcessor.java:115-121 | an expression statement without `PubSubType.staticCopy(` gets `this.`; anything else is unchanged |
| CompatibilityPatching.FixStatements | idl-tools/src/main/java/com/chesapeaketechnology/idl/patch/CompatibilityProcessor.java:113-123 | each statement is fixed in place |
| CompatibilityPatching.FixMember | idl-tools/src/main/java/com/chesapeaketechnology/idl/patch/CompatibilityProcessor.java:105-111 | only methods whose names start with "set" change |
| CompatibilityPatching.FixSetters | idl-tools/src/main/java/com/chesapeaketechnology/idl/patch/CompatibilityProcessor.java:102-125 | each member is fixed in place; nothing else in the unit changes |
| CompatibilityPatching.CompatPatch | idl-tools/src/main/java/com/chesapeaketechnology/idl/patch/CompatibilityProcessor.java:44-68 | non-IDL code and non-CAFE kinds return the code; CAFE fails iff the parse fails |
| CompatibilityPatching.VisitCafeAnnotation | idl-tools/src/main/java/com/chesapeaketechnology/idl/patch/CompatibilityProcessor.java:70-100 | the unit becomes `CafeAnnotated` of the old unit |
| CompatibilityPatching.CollectKeys | idl-tools/src/main/java/com/chesapeaketechnology/idl/patch/CompatibilityProcessor.java:78-89 | one pass over the members returns the keys of the commented fields in member order and the members with every field comment removed |
| CompatibilityPatching.FixSetterBody | idl-tools/src/main/java/com/chesapeaketechnology/idl/patch/CompatibilityProcessor.java:113-123 | the loop yields exactly `FixStatements` |
| CompatibilityPatching.VisitFixSetterScope | idl-tools/src/main/java/com/chesapeaketechnology/idl/patch/CompatibilityProcessor.java:102-125 | the unit becomes `FixSetters` of the old unit |
| CompatibilityPatching.CompatibilityProcessor.constructor | idl-tools/src/main/java/com/chesapeaketechnology/idl/patch/CompatibilityProcessor.java:37-41 | keeps the code and kind and computes the IDL flag |
| CompatibilityPatching.CompatibilityProcessor.Apply | idl-tools/src/main/java/com/chesapeaketechnology/idl/patch/CompatibilityProcessor.java:44-68 | returns `CompatPatch`, and the stored code is the result |
| CompatibilityPatching.KeysCountCommentedFields | idl-tools/src/main/java/com/chesapeaketechnology/idl/patch/CompatibilityProcessor.java:79-89 | there is exactly one key per commented field |
| CompatibilityPatching.AnnotationClearsComments | idl-tools/src/main/java/com/chesapeaketechnology/idl/patch/CompatibilityProcessor.java:77-99 | with "@key" present, the annotation carries the keys and topic type and every field comment is removed |
| HashCodeGeneration.StaticBitDecides | idl-tools/src/main/java/com/chesapeaketechnology/idl/asm/HashCodeGenerator.java:194-197 | a field is static iff bit 0x0008 of its access flags is set |
| HashCodeGeneration.PushInt | idl-tools/src/main/java/com/chesapeaketechnology/idl/asm/HashCodeGenerator.java:142-179 | ICONST for 0..5, BIPUSH to 127, SIPUSH to 32767, LDC above; negative values fail |
| HashCodeGeneration.PushIntPushes | idl-tools/src/main/java/com/chesapeaketechnology/idl/asm/HashCodeGenerator.java:142-179 | for every non-negative n the chosen instruction's operand fits and it pushes exactly n |
| HashCodeGeneration.Convert | idl-tools/src/main/java/com/chesapeaketechnology/idl/asm/HashCodeGenerator.java:94-134 | StringBuilder gets `toString`, one-letter primitives get `<Box>.valueOf`, other references get nothing |
| HashCodeGeneration.Generator.constructor | idl-tools/src/main/java/com/chesapeaketechnology/idl/asm/HashCodeGenerator.java:19-29 | a generator starts with no fields |
| HashCodeGeneration.Generator.Visit | idl-tools/src/main/java/com/chesapeaketechnology/idl/asm/HashCodeGenerator.java:32-36 | records the defining type only |
| HashCodeGeneration.Generator.VisitField | idl-tools/src/main/java/com/chesapeaketechnology/idl/asm/HashCodeGenerator.java:39-47 | records only non-static fields; a repeated name overwrites the earlier descriptor |
| HashCodeGeneration.Generator.VisitEnd | idl-tools/src/main/java/com/chesapeaketechnology/idl/asm/HashCodeGenerator.java:50-86 | the emitted code is the hash body for the recorded fields in the map's iteration order |
| HashCodeGeneration.StoreBlockStores | idl-tools/src/main/java/com/chesapeaketechnology/idl/asm/HashCodeGenerator.java:64-74 | one block stores the field's boxed value at its index and leaves the array on the stack |
| HashCodeGeneration.StoresFill | idl-tools/src/main/java/com/chesapeaketechnology/idl/asm/HashCodeGenerator.java:60-74 | the blocks store field i at index i, for each i in order |
| HashCodeGeneration.HashCodeFillsArray | idl-tools/src/main/java/com/chesapeaketechnology/idl/asm/HashCodeGenerator.java:50-86 | the whole body runs on an empty stack, fills an array of n slots with the fields at indices 0..n-1 and returns with an empty stack |
| HashCodeGeneration.BlockHasOneStore | idl-tools/src/main/java/com/chesapeaketechnology/idl/asm/HashCodeGenerator.java:64-74 | each block holds exactly one AASTORE |
| HashCodeGeneration.OneStorePerField | idl-tools/src/main/java/com/chesapeaketechnology/idl/asm/HashCodeGenerator.java:60-74 | the blocks hold one AASTORE per enumerated field |
| HashCodeGeneration.StoreCountIsFieldCount | idl-tools/src/main/java/com/chesapeaketechnology/idl/asm/HashCodeGenerator.java:50-86 | the method holds exactly as many AASTOREs as recorded fields |
| HashCodeGeneration.DeclaredMaxs | idl-tools/src/main/java/com/chesapeaketechnology/idl/asm/HashCodeGenerator.java:75-86 | the method declares max stack n+1 and max locals 1, then ends the code |
| JarLayout.AscendingUnique | idl-tools/src/main/java/com/chesapeaketechnology/idl/CompileSrc.java:188 | two orderings of one key set that are strictly ascending under `String.compareTo` (UTF-16 code units) are equal, so the TreeMap order is determined |
| JarLayout.Utf16RoundTrip | idl-tools/src/main/java/com/chesapeaketechnology/idl/CompileSrc.java:188 | decoding a string's UTF-16 code units gives back its characters |
| JarLayout.BelowTotal | idl-tools/src/main/java/com/chesapeaketechnology/idl/CompileSrc.java:188 | of two distinct keys, one sorts before the other under `String.compareTo` |
| JarLayout.SurrogatePairsSortBeforeHighBmp | idl-tools/src/main/java/com/chesapeaketechnology/idl/CompileSrc.java:188 | U+10000 sorts before U+E000, because the comparison is on UTF-16 code units and not on code points |
| JarLayout.ClimbVisits | idl-tools/src/main/java/com/chesapeaketechnology/idl/CompileSrc.java:196-208 | the climb adds every ancestor directory of the key to the visited set |
| JarLayout.ClimbNames | idl-tools/src/main/java/com/chesapeaketechnology/idl/CompileSrc.java:196-208 | the directories to add end in '/', are new prefixes of the key and run shallowest first |
| JarLayout.ClimbComplete | idl-tools/src/main/java/com/chesapeaketechnology/idl/CompileSrc.java:196-208 | every ancestor not yet visited is among the directories to add |
| JarLayout.LayoutFiles | idl-tools/src/main/java/com/chesapeaketechnology/idl/CompileSrc.java:217-219 | the file entries are exactly the keys, in order, each once |
| JarLayout.LayoutDirsDistinct | idl-tools/src/main/java/com/chesapeaketechnology/idl/CompileSrc.java:184-207 | no directory entry is written twice or for a directory already visited |
| JarLayout.LayoutAncestorsFirst | idl-tools/src/main/java/com/chesapeaketechnology/idl/CompileSrc.java:196-214 | every ancestor directory of a file is written before the file |
| JarLayout.NoSlashNoDirEntries | idl-tools/src/main/java/com/chesapeaketechnology/idl/CompileSrc.java:193 | keys without '/' bring no directory entry with them |
| JarLayout.JarEntriesWellFormed | idl-tools/src/main/java/com/chesapeaketechnology/idl/CompileSrc.java:180-222 | files in ascending key order, distinct '/'-terminated directories, ancestors first, all names distinct |
| JarLayout.ParentsToAdd | idl-tools/src/main/java/com/chesapeaketechnology/idl/CompileSrc.java:193-208 | the do-while computes exactly the climb |
| JarLayout.WriteEntries | idl-tools/src/main/java/com/chesapeaketechnology/idl/CompileSrc.java:188-220 | the entries written for the keys, in order, are exactly their layout: each key's missing parent directories, shallowest first, then the file itself |
| JarLayout.WriteToJar | idl-tools/src/main/java/com/chesapeaketechnology/idl/CompileSrc.java:180-222 | the loop writes exactly the layout of the sorted keys |

## Left out

- The IHMC transport is a stand-in. Wire encoding, CDR serialisation, QoS matching between peers and delivery timing are not modelled. A subscriber's queue is filled by `Receive` in the model.
- Creating a transport participant, publisher or subscriber, and writing a sample, always succeed in the model. So the `IOException` paths of the endpoint's lazy getters (`GetParticipant`, `GetPublisher`, `GetSubscriber`) and of the producer's `doStart` and `process` are not modelled.
- Camel's runtime is not modelled: `Exchange`, `DdsMessage`, `toExchange`, route building and the `DefaultEndpoint`/`DefaultConsumer` lifecycle. Only the started and stopped flags are kept. A processor's result is an outcome parameter.
- Logging is not modelled. A logged error is a counter.
- Concurrency is not modelled: the concurrent endpoint map, the unsynchronised registry, the check-then-create race in the lazy getters and the transport's callback threads. Everything is sequential.
- `ReflectionUtil` is a `Classpath` value that says which payload and adapter types can be instantiated.
- CamelComponent.Component.CreateEndpoint: an endpoint replaced in the map is not stopped, as in the code. It only becomes unreachable.
- `DdsUriBuilder` has no `getUri` or `reuseMessageStructures`. Callers outside the core use them, but the class does not define them, so only `toString` is modelled.
- JavaParser parsing and printing are parameters, not modelled. A compilation unit is its imports, primary type, annotations and member list. Nested types are not modelled, and only the first variable of each field declaration is used.
- Modifiers, `@Override` and the rendered text of generated members are not modelled.
- The underscore filter uses ASCII `\w`, and `\b` is approximated by "the next character is not a word character". Non-ASCII identifiers are not modelled.
- The `CompatibilityType` enum is not part of this model beyond CAFE and one other kind, which stands for all non-CAFE kinds.
- `HashCodeGenerator` runs inside ASM, which is not modelled. Its emitted code is an instruction list. The instructions are given meaning by a small stack machine that tracks only stack shape and array stores.
- HashCodeGeneration.DeclaredMaxs: states the declared `visitMaxs(n+1, 1)` and not the real stack need. That need is 4 words, 5 when a field is a long or double, and 1 when there are no fields. The class writer recomputes both under COMPUTE_FRAMES.
- HashCodeGeneration.Generator.VisitEnd: the HashMap iteration order is the `order` parameter. Any duplicate-free enumeration of the recorded fields is accepted.
- JarLayout.WriteToJar: the TreeMap order is the `sorted` parameter, ascending under `String.compareTo`, which is modelled as lexicographic order on UTF-16 code units. `AscendingUnique` shows that an ascending, complete ordering is unique.
- JarLayout.WriteToJar: the filesystem, javac, `JarOutputStream` and byte writing are not modelled. Only entry names and file data are.
- JarLayout.JarEntriesWellFormed: the distinctness of all names assumes that no key ends in '/'. Such a key would give a directory entry and a file entry with the same name.
- `GenerateSrc`, `Process`, `Compat`, `Pack`, `Tool`, `FileUtil` and the rest of `CompileSrc` are command-line and file plumbing, and are not modelled.
- The sample client and server applications are not modelled. Their routes and processors are constant strings and logging.
