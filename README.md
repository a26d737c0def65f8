# ThingsBoard "save time series" rule node — Dafny model

This project models the per-message decision logic of ThingsBoard's `TbMsgTimeseriesNode`,
the rule node that saves time-series telemetry:

- **Persistence settings** (`Persistence`): the closed set of four variants — `OnEveryMessage`,
  `WebSocketsOnly`, `Deduplicate(strategy)` and `Advanced(timeseries, latest, webSockets)` —
  and how `determineSaveActions` turns them into the three-flag save strategy
  (`saveTimeseries`, `saveLatest`, `sendWsUpdate`). A persistence strategy is a class whose
  `ShouldPersist` may change its own state; its decision rule is an opaque step function. The
  strategies of one node share a ghost call log, to which each call appends (strategy, call)
  as it happens, so the number and order of calls are stated from the calls themselves. `Decide` is the same dispatch on values.
- **Message processing** (`Node`): `onMsg` as the method `TbMsgTimeseriesNode.OnMsg`, proved
  against the value-level function `Process` (itself built from `ComputeTs`, `Decide` and
  `Conclude`). The node keeps a ghost `trace` of the timestamps it computed and the payloads it
  decoded, so that with the call log the early exits can be stated: an unsupported message type
  computes no timestamp and calls no strategy, and the decoder runs only when some flag is on.
- **TTL** (`Ttl`): the metadata `TTL` (parsed as by `Long.parseLong`, module `Numbers`) wins over
  the node default; a resolved 0 means the tenant-profile default, which is the profile's
  default storage TTL in days converted to seconds.
- **Flattening** (`Flattening`): the nested loop that turns the decoded timestamp → samples map
  into the list of stamped samples, proved equal to the function `Flatten`, whose length and
  per-position contents are proved.
- **Configuration upgrade** (`ConfigUpgrade`): the version-0 → 1 rewrite of the stored
  configuration, replacing the legacy `skipLatestPersistence` flag with serialised persistence
  settings. The JSON object is a class mutated in place; `Migrate` states the result.

The current time and the payload decoder are parameters of `OnMsg`. The decoder returns the
entries of its timestamp → samples map as a sequence, in the map's iteration order, because
the flattening loop visits the buckets in that order.

## Model

| member | source | states |
|---|---|---|
| `Persistence.Decide` | rule-engine/rule-engine-components/src/main/java/org/thingsboard/rule/engine/telemetry/TbMsgTimeseriesNode.java:147-167 | OnEveryMessage gives SAVE_ALL and WebSocketsOnly gives WS_ONLY with no strategy state changed; Deduplicate gives SAVE_ALL or SKIP_ALL, all flags equal to its strategy's answer; Advanced gives each flag the answer of its own strategy, and each strategy moves to its own next state |
| `Persistence.AdvancedFlagsIndependent` | rule-engine/rule-engine-components/src/main/java/org/thingsboard/rule/engine/telemetry/TbMsgTimeseriesNode.java:158-164 | every combination of the three flags is reachable under Advanced |
| `Persistence.OnlyStrategiesSkipAll` | rule-engine/rule-engine-components/src/main/java/org/thingsboard/rule/engine/telemetry/TbMsgTimeseriesNode.java:148-157 | only Deduplicate or Advanced can decide to skip everything |
| `Persistence.PersistenceStrategy.ShouldPersist` | rule-engine/rule-engine-components/src/main/java/org/thingsboard/rule/engine/telemetry/TbMsgTimeseriesNode.java:155 | the call (this strategy, (ts, originator)) is appended to the shared log, and the answer and new state are the strategy's rule applied to its old state |
| `Node.TbMsgTimeseriesNode.DetermineSaveActions` | rule-engine/rule-engine-components/src/main/java/org/thingsboard/rule/engine/telemetry/TbMsgTimeseriesNode.java:147-167 | the decision and the strategies' new states are those of Decide; the call log grows by exactly the calls the strategies made: none for the constant variants, the one strategy once for Deduplicate, and timeseries, latest, webSockets once each and in that order for Advanced, all with (ts, originator) |
| `Node.ComputeTs` | rule-engine/rule-engine-components/src/main/java/org/thingsboard/rule/engine/telemetry/TbMsgTimeseriesNode.java:143-145 | the current time when the metadata timestamp is ignored, the message's metadata timestamp otherwise |
| `Node.Conclude` | rule-engine/rule-engine-components/src/main/java/org/thingsboard/rule/engine/telemetry/TbMsgTimeseriesNode.java:109-140 | success exactly when all three flags are off; an empty decoded map fails with "Msg body is empty: " and the payload; a malformed TTL fails with the parse error; otherwise the outcome is the submission of the request carrying the tenant, customer and originator, the flattened samples (as many as the buckets hold), the resolved TTL and the decision |
| `Node.Process` | rule-engine/rule-engine-components/src/main/java/org/thingsboard/rule/engine/telemetry/TbMsgTimeseriesNode.java:100-141 | a message that is not POST_TELEMETRY_REQUEST fails with "Unsupported msg type: " and its type, settings untouched; otherwise the settings move as Decide says for (computed ts, originator) and the outcome is Conclude's for that decision: success exactly when it skips everything, else the empty-body failure, the TTL parse failure or the submission |
| `Node.ConstantSettingsNeverShortCircuit` | rule-engine/rule-engine-components/src/main/java/org/thingsboard/rule/engine/telemetry/TbMsgTimeseriesNode.java:109-113 | under OnEveryMessage or WebSocketsOnly a message never ends in the short-circuit success and the settings do not change |
| `Node.EmptyBody` | rule-engine/rule-engine-components/src/main/java/org/thingsboard/rule/engine/telemetry/TbMsgTimeseriesNode.java:109-119 | a payload that decodes to an empty map ends in success (nothing to save) or in the empty-body failure, never in a submission |
| `Node.TbMsgTimeseriesNode.OnMsg` | rule-engine/rule-engine-components/src/main/java/org/thingsboard/rule/engine/telemetry/TbMsgTimeseriesNode.java:100-141 | outcome and new strategy states equal Process; for an unsupported type neither the trace nor the call log changes; otherwise the trace records the computed ts and a Decoded event only when some flag is on, and the call log grows by the strategy calls of DetermineSaveActions, made with the computed ts |
| `Node.TbMsgTimeseriesNode.Finish` | rule-engine/rule-engine-components/src/main/java/org/thingsboard/rule/engine/telemetry/TbMsgTimeseriesNode.java:109-140 | the part of onMsg after the decision yields Conclude's outcome and decodes only when some flag is on |
| `Node.TbMsgTimeseriesNode.constructor` | rule-engine/rule-engine-components/src/main/java/org/thingsboard/rule/engine/telemetry/TbMsgTimeseriesNode.java:86-92 | init keeps the configuration and its persistence settings and sets the tenant default TTL to the profile's days in seconds |
| `Node.TbMsgTimeseriesNode.OnTenantProfileUpdate` | rule-engine/rule-engine-components/src/main/java/org/thingsboard/rule/engine/telemetry/TbMsgTimeseriesNode.java:94-97 | the tenant default TTL becomes the profile's default storage TTL days in seconds |
| `Ttl.DaysToSeconds` | rule-engine/rule-engine-components/src/main/java/org/thingsboard/rule/engine/telemetry/TbMsgTimeseriesNode.java:96 | the seconds are a whole number of days and divide back to the days given |
| `Ttl.MetadataTtl` | rule-engine/rule-engine-components/src/main/java/org/thingsboard/rule/engine/telemetry/TbMsgTimeseriesNode.java:127 | the metadata TTL value is present exactly when the metadata has a "TTL" key, and is that key's value |
| `Ttl.IsEmpty` | rule-engine/rule-engine-components/src/main/java/org/thingsboard/rule/engine/telemetry/TbMsgTimeseriesNode.java:128 | a value is non-empty exactly when it is present and has at least one character (StringUtils.isEmpty) |
| `Ttl.ResolveTtl` | rule-engine/rule-engine-components/src/main/java/org/thingsboard/rule/engine/telemetry/TbMsgTimeseriesNode.java:127-131 | a non-empty metadata TTL is parsed and wins (a parse failure propagates); without one the node default is used; a resolved 0 from either source becomes the tenant default, any other value is kept |
| `Ttl.MetadataTtlOverrides` | rule-engine/rule-engine-components/src/main/java/org/thingsboard/rule/engine/telemetry/TbMsgTimeseriesNode.java:127-128 | a metadata TTL written as a positive long resolves to that number whatever the defaults |
| `Ttl.ZeroTtlMeansTenantDefault` | rule-engine/rule-engine-components/src/main/java/org/thingsboard/rule/engine/telemetry/TbMsgTimeseriesNode.java:128-131 | a metadata TTL "0" resolves to the tenant default, the same as no metadata TTL with a node default of 0 |
| `Numbers.ParseLong` | rule-engine/rule-engine-components/src/main/java/org/thingsboard/rule/engine/telemetry/TbMsgTimeseriesNode.java:128 | succeeds exactly on an optional sign followed by at least one digit whose value lies in the signed 64-bit range, giving that value; every other text (empty, non-numeric, out of range) fails with the NumberFormatException message |
| `Numbers.ParseOverflowFails` | rule-engine/rule-engine-components/src/main/java/org/thingsboard/rule/engine/telemetry/TbMsgTimeseriesNode.java:128 | the decimal text of 2^63 does not parse |
| `Numbers.ParseSignedDecimal` | rule-engine/rule-engine-components/src/main/java/org/thingsboard/rule/engine/telemetry/TbMsgTimeseriesNode.java:128 | parsing the decimal text of any long gives that long back |
| `Flattening.FlattenEntries` | rule-engine/rule-engine-components/src/main/java/org/thingsboard/rule/engine/telemetry/TbMsgTimeseriesNode.java:121-126 | the nested loop builds exactly Flatten of the decoded buckets |
| `Flattening.FlattenLength` | rule-engine/rule-engine-components/src/main/java/org/thingsboard/rule/engine/telemetry/TbMsgTimeseriesNode.java:121-126 | the flattened list is as long as the sum of the bucket sizes |
| `Flattening.FlattenAt` | rule-engine/rule-engine-components/src/main/java/org/thingsboard/rule/engine/telemetry/TbMsgTimeseriesNode.java:121-126 | sample j of bucket i is at position (size of the buckets before i) + j, stamped with bucket i's timestamp: bucket order, then insertion order |
| `Flattening.FlattenOrigin` | rule-engine/rule-engine-components/src/main/java/org/thingsboard/rule/engine/telemetry/TbMsgTimeseriesNode.java:121-126 | every flattened entry is a sample of some bucket carrying that bucket's timestamp |
| `ConfigUpgrade.AsText` | rule-engine/rule-engine-components/src/main/java/org/thingsboard/rule/engine/telemetry/TbMsgTimeseriesNode.java:181 | a text node reads as its string, a boolean as "true" or "false", a long as decimal text that parses back to it, containers and serialised settings as the empty string |
| `ConfigUpgrade.AsTextTrue` | rule-engine/rule-engine-components/src/main/java/org/thingsboard/rule/engine/telemetry/TbMsgTimeseriesNode.java:181 | a JSON value's text is "true" exactly for the string "true" and the boolean true |
| `ConfigUpgrade.Migrate` | rule-engine/rule-engine-components/src/main/java/org/thingsboard/rule/engine/telemetry/TbMsgTimeseriesNode.java:175-197 | reports a change exactly for version 0; from version 0 removes skipLatestPersistence and sets persistenceSettings to Advanced(onEveryMessage, skip, onEveryMessage) when the flag reads "true", OnEveryMessage otherwise; every other field is kept; any other version leaves the configuration as it was |
| `ConfigUpgrade.UpgradedIsCurrent` | rule-engine/rule-engine-components/src/main/java/org/thingsboard/rule/engine/telemetry/TbMsgTimeseriesNode.java:193-196 | upgrading an already upgraded configuration again is a no-op |
| `ConfigUpgrade.ObjectNode.Get` | rule-engine/rule-engine-components/src/main/java/org/thingsboard/rule/engine/telemetry/TbMsgTimeseriesNode.java:180 | a field is found exactly when the object has the key, and is that key's value |
| `ConfigUpgrade.ObjectNode.Set` | rule-engine/rule-engine-components/src/main/java/org/thingsboard/rule/engine/telemetry/TbMsgTimeseriesNode.java:187 | the object's fields become the old fields with the key bound to the new value |
| `ConfigUpgrade.ObjectNode.Remove` | rule-engine/rule-engine-components/src/main/java/org/thingsboard/rule/engine/telemetry/TbMsgTimeseriesNode.java:191 | the object's fields become the old fields without the key |
| `ConfigUpgrade.Upgrade` | rule-engine/rule-engine-components/src/main/java/org/thingsboard/rule/engine/telemetry/TbMsgTimeseriesNode.java:175-197 | rewrites the given object in place to Migrate's fields, returns the same object and Migrate's change flag |

## Left out

- `KafkaEdgeTopicsCleanUpService.java`: scheduled executor, paged database reads and Kafka topic deletion; I/O plumbing around a one-line comparison, not part of this model.
- The deduplicating strategy's cache and its per-key concurrency: a strategy is an opaque step function over an opaque state. Only the always-persist and skip rules are given concretely.
- `Node.TbMsgTimeseriesNode.constructor`: requires Advanced's three strategies to be three distinct objects; one strategy object shared between two Advanced slots is not modelled. It also requires the held strategies to share the node's ghost call log, a device of the model for stating call order.
- `init`'s conversion of the stored configuration into a configuration object (TbNodeUtils.convert) and the building of strategies from their serialised form: the constructor takes the configuration value directly.
- The payload decoder (JsonParser and JsonConverter.convertToTelemetry) is a function parameter; a JSON syntax error it would throw is not modelled, and nothing requires its bucket timestamps to be distinct.
- `Numbers.ParseLong`: accepts ASCII digits only, where Long.parseLong also accepts other Unicode decimal digits.
- A NumberFormatException escaping onMsg is modelled as a Failure outcome carrying its message.
- `Ttl.DaysToSeconds`: does not model TimeUnit's saturation at the 64-bit bounds on overflow.
- `System.currentTimeMillis()` is the `now` parameter of OnMsg.
- The telemetry service submission, TelemetryNodeCallback and its asynchronous completion, `tellSuccess`/`tellFailure`, tenant-profile listener registration and `destroy`: the outcome datatype stands for what the node tells the bus or submits.
- The "unknown persistence settings type" exception (line 166) cannot arise: the settings are a closed datatype.
- `upgrade`'s cast of the configuration to ObjectNode: the model takes an object; a non-object configuration is not modelled. JSON floating-point numbers are not modelled.
