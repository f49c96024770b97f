/**
 * DdsQoSConfigManager: the name-to-config table. The source keeps it in a
 * static HashMap filled by a static initialiser; here it is one object whose
 * constructor plays the initialiser.
 */
module QosRegistry {
  import opened Wrappers
  import opened QosConfig

  const LowName: string := "low"
  const HighName: string := "high"

  /** The built-in profile for low-priority exchanges. */
  const Low: Config := NewSubscriberConfig(LowName, Some(BestEffort), Some(VolatileDurability),
                                           Some(SharedOwnership), Some(KeepLastHistory), None)

  /** The built-in profile for high-priority exchanges. */
  const High: Config := NewSubscriberConfig(HighName, Some(Reliable), Some(TransientLocalDurability),
                                            Some(ExclusiveOwnership), Some(KeepAllHistory), None)

  /**
   * getConfig on a given table: the Java null and the string "null" both give
   * null without looking at the table; any other name gives what is stored.
   */
  function Lookup(table: map<string, Config>, name: Option<string>): (r: Option<Config>)
    ensures name == None || name == Some("null") ==> r == None
    ensures name.Some? && name.value != "null" ==> (r.Some? <==> name.value in table)
    ensures r.Some? ==> name.Some? && name.value in table && r.value == table[name.value]
  {
    match name
    case None => None
    case Some(n) => if n == "null" then None else if n in table then Some(table[n]) else None
  }

  /** The table after register(c): c under its own name, nothing else touched. */
  function Registered(table: map<string, Config>, c: Config): (t: map<string, Config>)
    ensures t.Keys == table.Keys + {c.name} && t[c.name] == c
    ensures forall n :: n in table && n != c.name ==> t[n] == table[n]
  {
    table[c.name := c]
  }

  /** register(c) followed by getConfig(c.name) gives c back, unless the name is "null". */
  lemma RegisterThenLookup(table: map<string, Config>, c: Config)
    requires c.name != "null"
    ensures Lookup(Registered(table, c), Some(c.name)) == Some(c)
  {
  }

  /** Registering a config never changes what another name resolves to. */
  lemma RegisterKeepsOtherNames(table: map<string, Config>, c: Config, name: string)
    requires name != c.name
    ensures Lookup(Registered(table, c), Some(name)) == Lookup(table, Some(name))
  {
  }

  /** A config registered under the name "null" is stored but can never be looked up. */
  lemma NullNameIsUnreachable(table: map<string, Config>, c: Config)
    requires c.name == "null"
    ensures "null" in Registered(table, c)
    ensures Lookup(Registered(table, c), Some(c.name)) == None
  {
  }

  class ConfigManager {
    var table: map<string, Config>

    /** Every entry is stored under the config's own name. */
    ghost predicate Valid()
      reads this
    {
      forall n :: n in table ==> table[n].name == n
    }

    /** The static initialiser: register(low), then register(high). */
    constructor ()
      ensures Valid()
      ensures table == map[LowName := Low, HighName := High]
    {
      table := map[];
      new;
      Register(Low);
      Register(High);
    }

    /** register: stores under the config's name, silently replacing an earlier entry. */
    method Register(c: Config)
      requires Valid()
      modifies this
      ensures Valid()
      ensures table == Registered(old(table), c)
    {
      table := table[c.name := c];
    }

    function GetConfig(name: Option<string>): (r: Option<Config>)
      reads this
      ensures r == Lookup(table, name)
    {
      Lookup(table, name)
    }

    /** configs(): exactly the registered configs. */
    function Configs(): (r: set<Config>)
      reads this
      requires Valid()
      ensures forall c :: c in r <==> c.name in table && table[c.name] == c
    {
      table.Values
    }
  }

  /** After initialisation both built-ins resolve, with the policies the source gives them. */
  method InitialisedRegistryResolvesBuiltins() returns (m: ConfigManager)
    ensures m.Valid()
    ensures m.GetConfig(Some(LowName)) == Some(Low)
    ensures m.GetConfig(Some(HighName)) == Some(High)
    ensures Low.reliability == Some(BestEffort) && Low.durability == Some(VolatileDurability)
    ensures Low.ownership == Some(SharedOwnership) && Low.history == Some(KeepLastHistory)
    ensures High.reliability == Some(Reliable) && High.durability == Some(TransientLocalDurability)
    ensures High.ownership == Some(ExclusiveOwnership) && High.history == Some(KeepAllHistory)
    ensures Low.liveliness == None && High.liveliness == None
    ensures !Low.asynchronous && !High.asynchronous
    ensures m.GetConfig(Some("does-not-exist")) == None
  {
    m := new ConfigManager();
  }
}
