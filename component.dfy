/**
 * DdsCamelComponent: turns `dds:<topic>:<domain>/<type>?qos=..&reuse=..`
 * into an endpoint and remembers it, keyed by the URI without its query.
 */
module CamelComponent {
  import opened Wrappers
  import opened Strings
  import opened QosConfig
  import opened QosRegistry
  import opened Transport
  import opened QosConfigurator
  import opened Endpoints

  /** Integer.MAX_VALUE: the largest domain id parseInt accepts. */
  const MaxInt: int := 2147483647

  datatype UriError =
    | InvalidUri              // RuntimeCamelException "Invalid DDS URI"
    | SerializerUnavailable   // createIdlPubSubType cannot find `<type>PubSubType`
    | NumberFormat            // parseInt overflows
    | NullQosConfig           // the configurator rejects a null config

  /** `remaining` matched in full against (\w+):(\d+)/([\w.:]+) with these three groups. */
  predicate Matches(remaining: string, topic: string, domain: string, typeName: string) {
    remaining == topic + ":" + domain + "/" + typeName &&
    IsWord(topic) && IsDigits(domain) && IsTypeName(typeName)
  }

  /**
   * Matcher.matches() and its groups. Group 1 cannot contain ':' and group 2
   * cannot contain '/', so the only possible split is at the first ':' and
   * the first '/' after it.
   */
  function MatchRemaining(remaining: string): Option<(string, string, string)> {
    var i := IndexOf(remaining, ':');
    if i < 0 then None
    else
      var rest := remaining[i + 1..];
      var j := IndexOf(rest, '/');
      if j < 0 then None
      else
        var topic, domain, typeName := remaining[..i], rest[..j], rest[j + 1..];
        if IsWord(topic) && IsDigits(domain) && IsTypeName(typeName) then Some((topic, domain, typeName)) else None
  }

  /** In a string whose first |w| characters hold no `c`, followed by `c`, the first `c` is at |w|. */
  lemma FirstOccurrenceAfter(w: string, c: char, rest: string)
    requires c !in w
    ensures IndexOf(w + [c] + rest, c) == |w|
  {
    assert (w + [c] + rest)[|w|] == c;
  }

  /** Splitting `w + [c] + rest` at its first `c` gives back `w` and `rest`. */
  lemma SplitAtFirst(s: string, w: string, c: char, rest: string)
    requires s == w + [c] + rest && c !in w
    ensures IndexOf(s, c) == |w| && s[..|w|] == w && s[|w| + 1..] == rest
  {
    FirstOccurrenceAfter(w, c, rest);
  }

  /** A `\w+` group never holds a ':'. */
  lemma NoColonInWord(s: string)
    requires IsWord(s)
    ensures ':' !in s
  {
    forall k | 0 <= k < |s| ensures s[k] != ':' {
      assert IsWordChar(s[k]);
    }
  }

  /** A `\d+` group never holds a '/'. */
  lemma NoSlashInDigits(s: string)
    requires IsDigits(s)
    ensures '/' !in s
  {
    forall k | 0 <= k < |s| ensures s[k] != '/' {
      assert IsDigit(s[k]);
    }
  }

  /** A string is its text before position i, the character at i, and the text after it. */
  lemma SplitAround(s: string, i: int)
    requires 0 <= i < |s|
    ensures s == s[..i] + [s[i]] + s[i + 1..]
  {
  }

  /** Putting the two splits of MatchRemaining back together. */
  lemma Rejoin(remaining: string, topic: string, rest: string, domain: string, typeName: string)
    requires remaining == topic + [':'] + rest && rest == domain + ['/'] + typeName
    ensures remaining == topic + ":" + domain + "/" + typeName
  {
  }

  /** Whatever MatchRemaining returns is a full match of the pattern. */
  lemma MatchSound(remaining: string)
    requires MatchRemaining(remaining).Some?
    ensures var (topic, domain, typeName) := MatchRemaining(remaining).value;
      Matches(remaining, topic, domain, typeName)
  {
    var i := IndexOf(remaining, ':');
    var rest := remaining[i + 1..];
    var j := IndexOf(rest, '/');
    assert MatchRemaining(remaining).value == (remaining[..i], rest[..j], rest[j + 1..]);
    SplitAround(remaining, i);
    SplitAround(rest, j);
    Rejoin(remaining, remaining[..i], rest, rest[..j], rest[j + 1..]);
  }

  /** A full match of the pattern is what MatchRemaining finds. */
  lemma MatchComplete(remaining: string, topic: string, domain: string, typeName: string)
    requires Matches(remaining, topic, domain, typeName)
    ensures MatchRemaining(remaining) == Some((topic, domain, typeName))
  {
    NoColonInWord(topic);
    NoSlashInDigits(domain);
    var rest := domain + ['/'] + typeName;
    assert remaining == topic + [':'] + rest;
    SplitAtFirst(remaining, topic, ':', rest);
    SplitAtFirst(rest, domain, '/', typeName);
  }

  /** The regex matches with groups (t, d, n) exactly when MatchRemaining returns them. */
  lemma MatchIff(remaining: string, topic: string, domain: string, typeName: string)
    ensures MatchRemaining(remaining) == Some((topic, domain, typeName)) <==> Matches(remaining, topic, domain, typeName)
  {
    if MatchRemaining(remaining) == Some((topic, domain, typeName)) {
      MatchSound(remaining);
    }
    if Matches(remaining, topic, domain, typeName) {
      MatchComplete(remaining, topic, domain, typeName);
    }
  }

  /** The URI up to (not including) its first '?'. */
  function StripQuery(uri: string): (r: string)
    ensures '?' !in r && r <= uri
    ensures '?' !in uri ==> r == uri
    ensures '?' in uri ==> uri[|r|] == '?'
  {
    var i := IndexOf(uri, '?');
    if i < 0 then uri else uri[..i]
  }

  /** String.valueOf(parameters.get(key)): the value, or "null" when absent. */
  function ParamString(params: map<string, string>, key: string): (r: string)
    ensures key !in params ==> r == "null"
    ensures key in params ==> r == params[key]
  {
    if key in params then params[key] else "null"
  }

  /** Boolean.parseBoolean */
  predicate ParseBoolean(s: string) {
    EqualsIgnoreCase(s, "true")
  }

  /** What createEndpoint builds an endpoint from. */
  datatype EndpointSpec = EndpointSpec(uri: string, topic: string, messageType: string,
                                       domainId: int, config: Config, reuse: bool)

  /**
   * createEndpoint as a function: the first check to fail names the error,
   * in the order the source reaches them.
   */
  function Resolve(uri: string, remaining: string, params: map<string, string>,
                   table: map<string, Config>, classpath: Classpath): (r: Result<EndpointSpec, UriError>)
    ensures r == Failure(InvalidUri) <==> MatchRemaining(remaining).None?
    ensures r.Success? ==> (MatchRemaining(remaining).Some? &&
      var (topic, domain, typeName) := MatchRemaining(remaining).value;
      r.value.topic == topic && r.value.messageType == typeName &&
      r.value.domainId == DigitsValue(domain) && 0 <= r.value.domainId <= MaxInt &&
      CanCreateAdapter(classpath, typeName) && r.value.uri == StripQuery(uri) &&
      Lookup(table, Some(ParamString(params, "qos"))) == Some(r.value.config) &&
      r.value.reuse == ParseBoolean(ParamString(params, "reuse")))
  {
    match MatchRemaining(remaining)
    case None => Failure(InvalidUri)
    case Some((topic, domain, typeName)) =>
      if !CanCreateAdapter(classpath, typeName) then Failure(SerializerUnavailable)
      else
        var config := Lookup(table, Some(ParamString(params, "qos")));
        var reuse := ParseBoolean(ParamString(params, "reuse"));
        var stripped := StripQuery(uri);
        var domainId := DigitsValue(domain);
        if domainId > MaxInt then Failure(NumberFormat)
        else if config.None? then Failure(NullQosConfig)
        else Success(EndpointSpec(stripped, topic, typeName, domainId, config.value, reuse))
  }

  /** A URI without a qos parameter never yields an endpoint: "null" resolves to no config. */
  lemma MissingQosFails(uri: string, remaining: string, params: map<string, string>,
                        table: map<string, Config>, classpath: Classpath)
    requires "qos" !in params
    ensures Resolve(uri, remaining, params, table, classpath).Failure?
  {
  }

  /** An unknown qos name fails in exactly the same way once the earlier checks pass. */
  lemma UnknownQosFails(uri: string, topic: string, domain: string, typeName: string,
                        params: map<string, string>, table: map<string, Config>, classpath: Classpath)
    requires Matches(topic + ":" + domain + "/" + typeName, topic, domain, typeName)
    requires CanCreateAdapter(classpath, typeName) && DigitsValue(domain) <= MaxInt
    requires "qos" in params && params["qos"] !in table
    ensures Resolve(uri, topic + ":" + domain + "/" + typeName, params, table, classpath) == Failure(NullQosConfig)
  {
    MatchComplete(topic + ":" + domain + "/" + typeName, topic, domain, typeName);
  }

  /** A domain group beyond Integer.MAX_VALUE is a NumberFormatException. */
  lemma OversizedDomainFails(uri: string, topic: string, domain: string, typeName: string,
                             params: map<string, string>, table: map<string, Config>, classpath: Classpath)
    requires Matches(topic + ":" + domain + "/" + typeName, topic, domain, typeName)
    requires CanCreateAdapter(classpath, typeName) && DigitsValue(domain) > MaxInt
    ensures Resolve(uri, topic + ":" + domain + "/" + typeName, params, table, classpath) == Failure(NumberFormat)
  {
    MatchComplete(topic + ":" + domain + "/" + typeName, topic, domain, typeName);
  }

  /** A well-formed URI with a serializer, an in-range domain and a registered qos name resolves to its groups. */
  lemma WellFormedResolves(uri: string, topic: string, domain: string, typeName: string,
                           params: map<string, string>, table: map<string, Config>, classpath: Classpath)
    requires Matches(topic + ":" + domain + "/" + typeName, topic, domain, typeName)
    requires CanCreateAdapter(classpath, typeName) && DigitsValue(domain) <= MaxInt
    requires "qos" in params && params["qos"] != "null" && params["qos"] in table
    ensures Resolve(uri, topic + ":" + domain + "/" + typeName, params, table, classpath) ==
      Success(EndpointSpec(StripQuery(uri), topic, typeName, DigitsValue(domain), table[params["qos"]],
                           ParseBoolean(ParamString(params, "reuse"))))
  {
    MatchComplete(topic + ":" + domain + "/" + typeName, topic, domain, typeName);
  }

  /** reuse is on exactly when the parameter is present and reads "true" ignoring case. */
  lemma ReuseOnlyWhenTrue(params: map<string, string>)
    ensures ParseBoolean(ParamString(params, "reuse")) <==>
      "reuse" in params && EqualsIgnoreCase(params["reuse"], "true")
  {
    if "reuse" !in params {
      assert ToLowerAscii(ParamString(params, "reuse")[0]) != ToLowerAscii("true"[0]);
    }
  }

  /**
   * validateParameters accepts everything and only `qos` and `reuse` are
   * read, so any other parameter leaves the outcome unchanged.
   */
  lemma OtherParametersIgnored(uri: string, remaining: string, params: map<string, string>,
                               table: map<string, Config>, classpath: Classpath, key: string, value: string)
    requires key != "qos" && key != "reuse"
    ensures Resolve(uri, remaining, params[key := value], table, classpath) == Resolve(uri, remaining, params, table, classpath)
  {
    assert ParamString(params[key := value], "qos") == ParamString(params, "qos");
    assert ParamString(params[key := value], "reuse") == ParamString(params, "reuse");
  }

  class Component {
    const domain: Domain
    const registry: ConfigManager
    const classpath: Classpath
    var endpointMap: map<string, Endpoint>

    /** Every remembered endpoint is consistent, keyed by its own URI, and on the shared domain. */
    ghost predicate Valid()
      reads this, endpointMap.Values
    {
      (forall k :: k in endpointMap ==> endpointMap[k].uri == k) &&
      (forall e :: e in endpointMap.Values ==> e.Valid() && e.domain == domain)
    }

    constructor (domain: Domain, registry: ConfigManager, classpath: Classpath)
      ensures Valid() && endpointMap == map[]
      ensures this.domain == domain && this.registry == registry && this.classpath == classpath
    {
      this.domain := domain;
      this.registry := registry;
      this.classpath := classpath;
      endpointMap := map[];
    }

    /**
     * createEndpoint: on failure nothing is remembered; on success a new
     * endpoint replaces whatever was stored under the stripped URI.
     */
    method CreateEndpoint(uri: string, remaining: string, params: map<string, string>)
      returns (r: Result<Endpoint, UriError>)
      requires Valid()
      modifies this
      ensures Valid()
      ensures var spec := Resolve(uri, remaining, params, registry.table, classpath);
        (spec.Failure? ==> r == Failure(spec.error) && endpointMap == old(endpointMap)) &&
        (spec.Success? ==> (r.Success? && fresh(r.value) &&
          endpointMap == old(endpointMap)[spec.value.uri := r.value] &&
          r.value.uri == spec.value.uri && r.value.topicName == spec.value.topic &&
          r.value.messageType == spec.value.messageType && r.value.domainId == spec.value.domainId &&
          r.value.configurator.config == spec.value.config && r.value.reuse == spec.value.reuse &&
          r.value.participant == null && r.value.publisher == null && r.value.subscriber == null))
    {
      var m := MatchRemaining(remaining);
      if m.None? {
        return Failure(InvalidUri);
      }
      var (topic, domainDigits, dataClassName) := m.value;
      if !CanCreateAdapter(classpath, dataClassName) {
        return Failure(SerializerUnavailable);
      }
      var configKey := ParamString(params, "qos");
      var config := registry.GetConfig(Some(configKey));
      var reuse := ParseBoolean(ParamString(params, "reuse"));
      var stripped := uri;
      if '?' in uri {
        stripped := uri[..IndexOf(uri, '?')];
      }
      var domainId := DigitsValue(domainDigits);
      if domainId > MaxInt {
        return Failure(NumberFormat);
      }
      var configurator := NewConfigurator(config);
      if configurator.Failure? {
        return Failure(NullQosConfig);
      }
      var endpoint := new Endpoint(stripped, topic, dataClassName, domainId, configurator.value, reuse, domain);
      endpointMap := endpointMap[stripped := endpoint];
      r := Success(endpoint);
    }

    /**
     * doStop: closes every endpoint currently remembered, in whatever order
     * the map yields them. Each one not stopped before has its participant
     * removed from the domain.
     */
    method DoStop()
      requires Valid()
      modifies endpointMap.Values, domain
      ensures Valid()
      ensures forall e :: e in endpointMap.Values ==> e.stopped
      ensures forall e :: e in endpointMap.Values && !old(e.stopped) ==> e.participant != null && e.participant in domain.removed
    {
      var todo := endpointMap.Values;
      while todo != {}
        invariant todo <= endpointMap.Values
        invariant forall e :: e in todo ==> e.Valid() && e.stopped == old(e.stopped)
        invariant forall e :: e in endpointMap.Values && e !in todo ==>
          e.Valid() && e.stopped && (!old(e.stopped) ==> e.participant != null && e.participant in domain.removed)
        decreases todo
      {
        var e :| e in todo;
        label BeforeClose:
        e.Close();
        forall x | x in endpointMap.Values && x !in todo - {e}
          ensures x.Valid() && x.stopped && (!old(x.stopped) ==> x.participant != null && x.participant in domain.removed)
        {
          if x != e {
            assert x !in todo && unchanged@BeforeClose(x);
          }
        }
        forall x | x in todo - {e}
          ensures x.Valid() && x.stopped == old(x.stopped)
        {
          assert unchanged@BeforeClose(x);
        }
        todo := todo - {e};
      }
    }
  }
}
