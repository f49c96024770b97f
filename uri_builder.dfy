/**
 * DdsUriBuilder: a fluent builder whose toString() renders
 * `dds:<SimpleName>:<domain>/<FullName>[?qos=<name>]`.
 */
module UriBuilding {
  import opened Wrappers
  import opened Strings
  import opened QosConfig
  import opened QosRegistry
  import opened Transport
  import opened CamelComponent

  const Scheme: string := "dds"

  /** A payload class as the builder sees it: Class.getSimpleName() and Class.getName(). */
  datatype ContentType = ContentType(simpleName: string, name: string)

  datatype BuildError = NullDomain | NullContentType

  /** The part Camel hands to createEndpoint as `remaining`. */
  function Remaining(t: ContentType, domain: string): string {
    t.simpleName + ":" + domain + "/" + t.name
  }

  /** toString() on the builder's three fields; the domain is checked before the type. */
  function Build(domain: Option<string>, contentType: Option<ContentType>, config: Option<Config>): (r: Result<string, BuildError>)
    ensures domain.None? ==> r == Failure(NullDomain)
    ensures domain.Some? && contentType.None? ==> r == Failure(NullContentType)
    ensures r.Success? <==> domain.Some? && contentType.Some?
    ensures r.Success? ==> StartsWith(r.value, Scheme + ":" + Remaining(contentType.value, domain.value))
  {
    if domain.None? then Failure(NullDomain)
    else if contentType.None? then Failure(NullContentType)
    else
      var uri := Scheme + ":" + Remaining(contentType.value, domain.value);
      Success(if config.Some? then uri + "?qos=" + config.value.name else uri)
  }

  class UriBuilder {
    var config: Option<Config>
    var contentType: Option<ContentType>
    var domain: Option<string>

    /** create(): no config, no content type, domain "0". */
    constructor Create()
      ensures config == None && contentType == None && domain == Some("0")
    {
      config := None;
      contentType := None;
      domain := Some("0");
    }

    /** quality(name): the registry's answer for the name, which is null for an unknown name. */
    method QualityByName(registry: ConfigManager, name: Option<string>) returns (b: UriBuilder)
      modifies this
      ensures b == this && config == Lookup(registry.table, name)
      ensures contentType == old(contentType) && domain == old(domain)
    {
      b := Quality(registry.GetConfig(name));
    }

    /** quality(config) */
    method Quality(c: Option<Config>) returns (b: UriBuilder)
      modifies this
      ensures b == this && config == c
      ensures contentType == old(contentType) && domain == old(domain)
    {
      config := c;
      b := this;
    }

    /** domain(int): the decimal rendering of the id. */
    method DomainId(d: int) returns (b: UriBuilder)
      modifies this
      ensures b == this && domain == Some(IntToString(d))
      ensures d >= 0 ==> IsDigits(domain.value) && DigitsValue(domain.value) == d
      ensures config == old(config) && contentType == old(contentType)
    {
      if d >= 0 {
        NatToStringRoundTrip(d);
      }
      b := DomainName(Some(IntToString(d)));
    }

    /** domain(String), null included. */
    method DomainName(d: Option<string>) returns (b: UriBuilder)
      modifies this
      ensures b == this && domain == d
      ensures config == old(config) && contentType == old(contentType)
    {
      domain := d;
      b := this;
    }

    /** content(Class), null included. */
    method Content(t: Option<ContentType>) returns (b: UriBuilder)
      modifies this
      ensures b == this && contentType == t
      ensures config == old(config) && domain == old(domain)
    {
      contentType := t;
      b := this;
    }

    function ToString(): (r: Result<string, BuildError>)
      reads this
      ensures r == Build(domain, contentType, config)
    {
      Build(domain, contentType, config)
    }
  }

  /**
   * A URI with a config is the URI without one followed directly by `?qos=<name>`;
   * one without has no query at all.
   */
  lemma QuerySuffix(domain: string, t: ContentType, config: Option<Config>)
    ensures config.Some? ==>
      Build(Some(domain), Some(t), config).value == Build(Some(domain), Some(t), None).value + "?qos=" + config.value.name
    ensures config.Some? ==> EndsWith(Build(Some(domain), Some(t), config).value, "?qos=" + config.value.name)
    ensures config.None? ==> Build(Some(domain), Some(t), config).value == Scheme + ":" + Remaining(t, domain)
  {
    var base := Scheme + ":" + Remaining(t, domain);
    if config.Some? {
      var suffix := "?qos=" + config.value.name;
      assert base + "?qos=" + config.value.name == base + suffix;
      assert Build(Some(domain), Some(t), config).value == base + suffix;
      assert (base + suffix)[|base + suffix| - |suffix|..] == suffix;
    }
  }

  /** A name made of word characters, digits or [\w.:] holds no '?'. */
  lemma NoQuestionMark(s: string)
    requires IsTypeName(s)
    ensures '?' !in s
  {
    forall k | 0 <= k < |s| ensures s[k] != '?' {
      assert IsWordChar(s[k]) || s[k] == '.' || s[k] == ':';
    }
  }

  /** Stripping the query of `base + "?..."` gives `base` back when `base` holds no '?'. */
  lemma StripAppendedQuery(base: string, query: string)
    requires '?' !in base
    ensures StripQuery(base + "?" + query) == base
  {
    FirstOccurrenceAfter(base, '?', query);
    assert base + "?" + query == base + ['?'] + query;
    assert (base + "?" + query)[..|base|] == base;
  }

  /** The URI without its query holds no '?' when its parts are names of the pattern. */
  lemma BaseHasNoQuery(domain: string, t: ContentType)
    requires IsWord(t.simpleName) && IsDigits(domain) && IsTypeName(t.name)
    ensures '?' !in Scheme + ":" + Remaining(t, domain)
  {
    NoQuestionMark(t.simpleName);
    NoQuestionMark(t.name);
    assert IsTypeName(domain) by {
      forall k | 0 <= k < |domain| ensures IsWordChar(domain[k]) {
        assert IsDigit(domain[k]);
      }
    }
    NoQuestionMark(domain);
    var base := Scheme + ":" + Remaining(t, domain);
    assert base == Scheme + ":" + t.simpleName + ":" + domain + "/" + t.name;
  }

  /**
   * The round trip with the component: before its query the built URI is
   * the scheme and a `remaining` that the component's pattern matches,
   * giving back the simple name, the domain and the full name.
   */
  lemma BuildThenMatch(domain: string, t: ContentType, config: Option<Config>)
    requires IsWord(t.simpleName) && IsDigits(domain) && IsTypeName(t.name)
    ensures var uri := Build(Some(domain), Some(t), config).value;
      StripQuery(uri) == Scheme + ":" + Remaining(t, domain) &&
      MatchRemaining(Remaining(t, domain)) == Some((t.simpleName, domain, t.name))
  {
    MatchComplete(Remaining(t, domain), t.simpleName, domain, t.name);
    BuildStripsToBase(domain, t, config);
  }

  /** Before its query, the built URI is the scheme and `remaining`. */
  lemma BuildStripsToBase(domain: string, t: ContentType, config: Option<Config>)
    requires IsWord(t.simpleName) && IsDigits(domain) && IsTypeName(t.name)
    ensures StripQuery(Build(Some(domain), Some(t), config).value) == Scheme + ":" + Remaining(t, domain)
  {
    var base := Scheme + ":" + Remaining(t, domain);
    BaseHasNoQuery(domain, t);
    if config.Some? {
      var uri := Build(Some(domain), Some(t), config).value;
      assert uri == base + "?" + ("qos=" + config.value.name);
      StripAppendedQuery(base, "qos=" + config.value.name);
    }
  }

  /**
   * Building with a registered config and handing the result to the
   * component, which receives the query as the parameter `qos`, resolves
   * to an endpoint on exactly that config.
   */
  lemma BuiltUriResolves(domain: string, t: ContentType, c: Config, table: map<string, Config>, classpath: Classpath)
    requires IsWord(t.simpleName) && IsDigits(domain) && IsTypeName(t.name)
    requires DigitsValue(domain) <= MaxInt && CanCreateAdapter(classpath, t.name)
    requires c.name in table && table[c.name] == c && c.name != "null"
    ensures var uri := Build(Some(domain), Some(t), Some(c)).value;
      Resolve(uri, Remaining(t, domain), map["qos" := c.name], table, classpath) ==
        Success(EndpointSpec(Scheme + ":" + Remaining(t, domain), t.simpleName, t.name, DigitsValue(domain), c, false))
  {
    BuildThenMatch(domain, t, Some(c));
    WellFormedResolves(Build(Some(domain), Some(t), Some(c)).value, t.simpleName, domain, t.name,
                       map["qos" := c.name], table, classpath);
    ReuseOnlyWhenTrue(map["qos" := c.name]);
  }

  /** Naming an unregistered config leaves the builder without one, so no `?qos=` is emitted. */
  method UnknownQualityEmitsNoQuery(registry: ConfigManager, t: ContentType, name: string) returns (r: Result<string, BuildError>)
    requires name !in registry.table
    ensures r.Success? && r.value == Scheme + ":" + Remaining(t, "0")
  {
    var b := new UriBuilder.Create();
    b := b.Content(Some(t));
    b := b.QualityByName(registry, Some(name));
    r := b.ToString();
  }

  /**
   * For every registered config the builder's URI ends with `?qos=<name>`,
   * which the configuration tests assert for each entry of configs().
   */
  method RegisteredQualityEndsWithName(registry: ConfigManager, t: ContentType, c: Config) returns (r: Result<string, BuildError>)
    requires registry.Valid() && c in registry.Configs() && c.name != "null"
    ensures r.Success? && EndsWith(r.value, "?qos=" + c.name)
  {
    var b := new UriBuilder.Create();
    b := b.Content(Some(t));
    b := b.QualityByName(registry, Some(c.name));
    r := b.ToString();
    QuerySuffix("0", t, Some(c));
  }
}
