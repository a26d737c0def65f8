/** The node's configuration upgrade from version 0 (legacy skipLatestPersistence flag) to version 1. */
module ConfigUpgrade {
  import opened Wrappers
  import opened Numbers
  import opened Persistence

  /** The serialised form of a persistence strategy. */
  datatype StrategyConfig =
    | OnEveryMessageStrategy
    | SkipStrategy
    | DeduplicateStrategy(deduplicationIntervalSecs: int)

  /** The serialised form of the persistence settings. */
  type SettingsConfig = Settings<StrategyConfig>

  /**
   * A JSON node of the stored configuration. Serialised persistence settings are kept
   * symbolically; floating-point numbers are not modelled.
   */
  datatype JsonNode =
    | JNull
    | JBool(b: bool)
    | JNumber(n: int)
    | JText(s: string)
    | JArray(items: seq<JsonNode>)
    | JObject(members: map<string, JsonNode>)
    | JSettings(settings: SettingsConfig)

  /** JsonNode.asText(): the value's text for scalars, the empty string for containers. */
  function AsText(node: JsonNode): (text: string)
    ensures node.JText? ==> text == node.s
    ensures node.JBool? ==> (text == "true" <==> node.b) && (text == "false" <==> !node.b)
    ensures node.JNumber? && LONG_MIN <= node.n <= LONG_MAX ==> ParseLong(text) == Ok(node.n)
    ensures node.JArray? || node.JObject? || node.JSettings? ==> text == ""
  {
    match node
    case JNull => "null"
    case JBool(b) => if b then "true" else "false"
    case JNumber(n) =>
      if LONG_MIN <= n <= LONG_MAX then ParseSignedDecimal(n); SignedDecimal(n) else SignedDecimal(n)
    case JText(s) => s
    case JArray(_) => ""
    case JObject(_) => ""
    case JSettings(_) => ""
  }

  /** Only the text "true" and the boolean true read as "true". */
  lemma AsTextTrue(node: JsonNode)
    ensures AsText(node) == "true" <==> node == JText("true") || node == JBool(true)
  {
    if node.JNumber? {
      var n := node.n;
      DecimalDigits(if n < 0 then -n else n);
      assert SignedDecimal(n)[0] == '-' || IsDigit(SignedDecimal(n)[0]);
    }
  }

  const SKIP_LATEST_PERSISTENCE := "skipLatestPersistence"
  const PERSISTENCE_SETTINGS := "persistenceSettings"

  /** Time series and web sockets on every message, latest values never. */
  const SKIP_LATEST_SETTINGS: SettingsConfig := Advanced(OnEveryMessageStrategy, SkipStrategy, OnEveryMessageStrategy)

  /**
   * The upgrade of a configuration's fields: from version 0 the legacy flag becomes
   * persistence settings (Advanced with latest skipped when the flag reads "true",
   * OnEveryMessage otherwise) and is removed; every other field is kept. Other versions
   * are left alone and report no change.
   */
  function Migrate(fromVersion: int, fields: map<string, JsonNode>): (r: (bool, map<string, JsonNode>))
    ensures r.0 <==> fromVersion == 0
    ensures fromVersion != 0 ==> r.1 == fields
    ensures fromVersion == 0 ==>
              SKIP_LATEST_PERSISTENCE !in r.1 && PERSISTENCE_SETTINGS in r.1 &&
              r.1[PERSISTENCE_SETTINGS] ==
                JSettings(if SKIP_LATEST_PERSISTENCE in fields &&
                             (fields[SKIP_LATEST_PERSISTENCE] == JText("true") ||
                              fields[SKIP_LATEST_PERSISTENCE] == JBool(true))
                          then SKIP_LATEST_SETTINGS else OnEveryMessage)
    ensures forall k :: k != SKIP_LATEST_PERSISTENCE && k != PERSISTENCE_SETTINGS ==>
              (k in r.1 <==> k in fields) && (k in fields ==> r.1[k] == fields[k])
  {
    if fromVersion == 0 then
      var skipLatest := if SKIP_LATEST_PERSISTENCE in fields then Some(fields[SKIP_LATEST_PERSISTENCE]) else None;
      var settings :=
        if skipLatest.Some? && AsText(skipLatest.value) == "true" then SKIP_LATEST_SETTINGS else OnEveryMessage;
      AsTextTrue(if skipLatest.Some? then skipLatest.value else JNull);
      (true, fields[PERSISTENCE_SETTINGS := JSettings(settings)] - {SKIP_LATEST_PERSISTENCE})
    else
      (false, fields)
  }

  /** Upgrading a configuration that is already at version 1 changes nothing. */
  lemma UpgradedIsCurrent(fields: map<string, JsonNode>)
    ensures Migrate(1, Migrate(0, fields).1) == (false, Migrate(0, fields).1)
  {
  }

  /** A mutable JSON object (ObjectNode). */
  class ObjectNode {
    var fields: map<string, JsonNode>

    constructor (fields: map<string, JsonNode>)
      ensures this.fields == fields
    {
      this.fields := fields;
    }

    function Get(key: string): (r: Option<JsonNode>)
      reads this
      ensures r.Some? <==> key in fields
      ensures r.Some? ==> r.value == fields[key]
    {
      if key in fields then Some(fields[key]) else None
    }

    method Set(key: string, value: JsonNode)
      modifies this
      ensures fields == old(fields)[key := value]
    {
      fields := fields[key := value];
    }

    method Remove(key: string)
      modifies this
      ensures fields == old(fields) - {key}
    {
      fields := fields - {key};
    }
  }

  /** upgrade: rewrites the given configuration object in place and returns it. */
  method Upgrade(fromVersion: int, oldConfiguration: ObjectNode) returns (hasChanges: bool, upgraded: ObjectNode)
    modifies oldConfiguration
    ensures upgraded == oldConfiguration
    ensures (hasChanges, upgraded.fields) == Migrate(fromVersion, old(oldConfiguration.fields))
  {
    hasChanges := false;
    if fromVersion == 0 {
      hasChanges := true;
      var skipLatestPersistence := oldConfiguration.Get(SKIP_LATEST_PERSISTENCE);
      if skipLatestPersistence.Some? && AsText(skipLatestPersistence.value) == "true" {
        oldConfiguration.Set(PERSISTENCE_SETTINGS, JSettings(SKIP_LATEST_SETTINGS));
      } else {
        oldConfiguration.Set(PERSISTENCE_SETTINGS, JSettings(OnEveryMessage));
      }
      oldConfiguration.Remove(SKIP_LATEST_PERSISTENCE);
    }
    upgraded := oldConfiguration;
  }
}
